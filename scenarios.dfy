/** The repository's tests of the cursors and of single lexer steps, replayed
    as methods that build the objects, drive them, and return what the tests
    look at. The lexer logs its callbacks; each scenario hands the log to a
    CountingLexerCallback, as the Go lexer would have called it. */
module Scenarios {
  import opened GoTypes
  import opened MidiErrors
  import opened MidiStructs
  import opened MidiValues
  import opened MidiInterfaces
  import opened Mocks
  import opened OldMocks
  import opened Midi
  import opened MidiExamples

  /** A buffer is what a read put in front of the count and what it left
      behind it. */
  lemma Joined(s: seq<byte>, n: nat, front: seq<byte>, back: seq<byte>)
    requires n <= |s| && s[..n] == front && s[n..] == back
    ensures s == front + back
  {
    assert s == s[..n] + s[n..];
  }

  /** Four reads into a three-byte buffer over seven bytes: 3, 3, then the last
      byte over the front of the old contents, then nothing. */
  method ReadSeekerReads() returns (counts: seq<nat>, buffers: seq<seq<byte>>)
    ensures counts == [3, 3, 1, 0]
    ensures buffers == [[0x01, 0x02, 0x03], [0x04, 0x05, 0x06], [0x07, 0x05, 0x06], [0x07, 0x05, 0x06]]
  {
    var reader: MockReadSeeker := new MockReadSeeker([0x01, 0x02, 0x03, 0x04, 0x05, 0x06, 0x07]);
    var data: array<byte> := new byte[3](_ => 0);
    var c0 := reader.Read(data);
    Joined(data[..], c0, [0x01, 0x02, 0x03], []);
    var b0 := data[..];
    assert c0 == 3 && b0 == [0x01, 0x02, 0x03];
    var c1 := reader.Read(data);
    Joined(data[..], c1, [0x04, 0x05, 0x06], []);
    var b1 := data[..];
    assert c1 == 3 && b1 == [0x04, 0x05, 0x06];
    var c2 := reader.Read(data);
    Joined(data[..], c2, [0x07], [0x05, 0x06]);
    var b2 := data[..];
    assert c2 == 1 && b2 == [0x07, 0x05, 0x06];
    var c3 := reader.Read(data);
    Joined(data[..], c3, [], [0x07, 0x05, 0x06]);
    counts, buffers := [c0, c1, c2, c3], [b0, b1, b2, data[..]];
  }

  /** The same four reads through the older, forward-only cursor. */
  method MockReaderReads() returns (counts: seq<nat>, buffers: seq<seq<byte>>)
    ensures counts == [3, 3, 1, 0]
    ensures buffers == [[0x01, 0x02, 0x03], [0x04, 0x05, 0x06], [0x07, 0x05, 0x06], [0x07, 0x05, 0x06]]
  {
    var reader: MockReader := new MockReader([0x01, 0x02, 0x03, 0x04, 0x05, 0x06, 0x07]);
    var data: array<byte> := new byte[3](_ => 0);
    var c0 := reader.Read(data);
    Joined(data[..], c0, [0x01, 0x02, 0x03], []);
    var b0 := data[..];
    assert c0 == 3 && b0 == [0x01, 0x02, 0x03];
    var c1 := reader.Read(data);
    Joined(data[..], c1, [0x04, 0x05, 0x06], []);
    var b1 := data[..];
    assert c1 == 3 && b1 == [0x04, 0x05, 0x06];
    var c2 := reader.Read(data);
    Joined(data[..], c2, [0x07], [0x05, 0x06]);
    var b2 := data[..];
    assert c2 == 1 && b2 == [0x07, 0x05, 0x06];
    var c3 := reader.Read(data);
    Joined(data[..], c3, [], [0x07, 0x05, 0x06]);
    counts, buffers := [c0, c1, c2, c3], [b0, b1, b2, data[..]];
  }

  /** Seeks from the start, each followed by a one-byte read. */
  method SeeksFromStart() returns (positions: seq<int>, bytesRead: seq<byte>)
    ensures positions == [6, 2, 0]
    ensures bytesRead == [0x07, 0x03, 0x01]
  {
    var reader: MockReadSeeker := new MockReadSeeker([0x01, 0x02, 0x03, 0x04, 0x05, 0x06, 0x07]);
    var buffer: array<byte> := new byte[1](_ => 0);
    var p0, e0 := reader.Seek(6, 0);
    ghost var beforen0 := reader.position;
    var n0 := reader.Read(buffer);
    assert n0 == 0 || buffer[0] == reader.data[beforen0]
      by { assert n0 > 0 ==> buffer[..n0][0] == buffer[0]; }
    var b0 := buffer[0];
    var p1, e1 := reader.Seek(2, 0);
    ghost var beforen1 := reader.position;
    var n1 := reader.Read(buffer);
    assert n1 == 0 || buffer[0] == reader.data[beforen1]
      by { assert n1 > 0 ==> buffer[..n1][0] == buffer[0]; }
    var b1 := buffer[0];
    var p2, e2 := reader.Seek(0, 0);
    ghost var beforen2 := reader.position;
    var n2 := reader.Read(buffer);
    assert n2 == 0 || buffer[0] == reader.data[beforen2]
      by { assert n2 > 0 ==> buffer[..n2][0] == buffer[0]; }
    positions, bytesRead := [p0, p1, p2], [b0, b1, buffer[0]];
  }

  /** Seeks relative to the cursor: by zero, which only reports the position,
      and by one. */
  method SeeksFromCurrent() returns (positions: seq<int>, bytesRead: seq<byte>)
    ensures positions == [4, 4, 6]
    ensures bytesRead == [0x05, 0x07]
  {
    var reader: MockReadSeeker := new MockReadSeeker([0x01, 0x02, 0x03, 0x04, 0x05, 0x06, 0x07]);
    var buffer: array<byte> := new byte[1](_ => 0);
    var p0, e0 := reader.Seek(4, 0);
    var p1, e1 := reader.Seek(0, 1);
    ghost var beforen1 := reader.position;
    var n1 := reader.Read(buffer);
    assert n1 == 0 || buffer[0] == reader.data[beforen1]
      by { assert n1 > 0 ==> buffer[..n1][0] == buffer[0]; }
    var b1 := buffer[0];
    var p2, e2 := reader.Seek(1, 1);
    ghost var beforen2 := reader.position;
    var n2 := reader.Read(buffer);
    assert n2 == 0 || buffer[0] == reader.data[beforen2]
      by { assert n2 > 0 ==> buffer[..n2][0] == buffer[0]; }
    positions, bytesRead := [p0, p1, p2], [b1, buffer[0]];
  }

  /** Seeks back from the end, after a read of the last byte. At the very end
      nothing is read and the buffer keeps the byte read before. */
  method SeeksFromEnd() returns (positions: seq<int>, counts: seq<nat>, bytesRead: seq<byte>)
    ensures positions == [7, 6]
    ensures counts == [0, 1]
    ensures bytesRead == [0x07, 0x07]
  {
    var reader: MockReadSeeker := new MockReadSeeker([0x01, 0x02, 0x03, 0x04, 0x05, 0x06, 0x07]);
    var buffer: array<byte> := new byte[1](_ => 0);
    var p, e := reader.Seek(6, 0);
    var n := reader.Read(buffer);
    assert buffer[0] == buffer[..n][0];
    var p0, e0 := reader.Seek(0, 2);
    ghost var last := buffer[..];
    var n0 := reader.Read(buffer);
    assert buffer[0] == buffer[n0..][0] == last[0];
    var b0 := buffer[0];
    var p1, e1 := reader.Seek(1, 2);
    var n1 := reader.Read(buffer);
    assert buffer[0] == buffer[..n1][0];
    positions, counts, bytesRead := [p0, p1], [n0, n1], [b0, buffer[0]];
  }

  /** A new lexer on the header test bytes: one call reads the header chunk,
      calls Began and then Header with format 1, two tracks and 200 ticks per
      quarter note, and the lexer expects a chunk. */
  method LexHeaderChunk() returns (finished: bool, err: Option<Error>, state: LexerState, events: seq<Event>)
    ensures !finished && err.None? && state == ExpectChunk
    ensures events == [Began, Header(HeaderData(1, 2, MetricalTimeFormat, 0, 200))]
  {
    var data: seq<byte> := [0x4D, 0x54, 0x68, 0x64, 0x00, 0x00, 0x00, 0x06, 0x00, 0x01, 0x00, 0x02, 0x00, 0xC8];
    var input: MockReadSeeker := new MockReadSeeker(data);
    var lexer: MidiLexer := new MidiLexer(input);
    HeaderExample(data, 0);
    finished, err := lexer.Next();
    state, events := lexer.state, lexer.events;
  }

  /** The header chunk's callbacks as the counting callback records them: Began
      and Header once each, with the header's values, and no Track. */
  method HeaderScenario() returns (callback: CountingLexerCallback)
    ensures callback.began == 1 && callback.header == 1 && callback.track == 0
    ensures callback.seen.headerData == HeaderData(1, 2, MetricalTimeFormat, 0, 200)
  {
    var finished, err, state, events := LexHeaderChunk();
    callback := new CountingLexerCallback();
    assert callback.Count(BeganCall) == 0 && callback.Count(HeaderCall) == 0 && callback.Count(TrackCall) == 0;
    callback.Deliver(events[0]);
    assert callback.Count(BeganCall) == 1 && callback.Count(HeaderCall) == 0 && callback.Count(TrackCall) == 0;
    callback.Deliver(events[1]);
    assert callback.Count(BeganCall) == 1 && callback.Count(HeaderCall) == 1 && callback.Count(TrackCall) == 0;
  }

  /** An unknown two-byte chunk at the start: Track is called and the cursor
      lands on the next chunk, at 10. */
  method SkipUnknownChunkScenario() returns (finished: bool, err: Option<Error>, state: LexerState, position: int)
    ensures !finished && err.None? && state == ExpectChunk && position == 10
  {
    var data: seq<byte> := [0xDE, 0xAD, 0xBE, 0xEF, 0x00, 0x00, 0x00, 0x02, 0xCA, 0xFE,
                            0x4D, 0x54, 0x68, 0x64, 0x00, 0x00, 0x00, 0x06, 0x00, 0x01, 0x00, 0x02, 0x00, 0xC8];
    var input: MockReadSeeker := new MockReadSeeker(data);
    var lexer: MidiLexer := new MidiLexer(input);
    lexer.state := ExpectChunk;
    SkipUnknownChunkExample(data, 0);
    finished, err := lexer.Next();
    state := lexer.state;
    var seekErr;
    position, seekErr := input.Seek(0, 1);
  }

  /** A chunk expected on empty input: the error is returned and the state kept
      (there is no Done state to move to). */
  method EndOfInputScenario() returns (finished: bool, err: Option<Error>, state: LexerState)
    ensures !finished && err == Some(UnexpectedEndOfFile) && state == ExpectChunk
  {
    var input: MockReadSeeker := new MockReadSeeker([]);
    var lexer: MidiLexer := new MidiLexer(input);
    lexer.state := ExpectChunk;
    EndOfInputExample([], 0);
    finished, err := lexer.Next();
    state := lexer.state;
  }

  /** Delta-time 0x40, then NoteOff on channel 5 with pitch 4 and velocity 3. */
  method LexNoteOff() returns (finished: bool, err: Option<Error>, state: LexerState, events: seq<Event>)
    ensures !finished && err.None? && state == ExpectTrackEvent
    ensures events == [NoteOff(0x05, 0x04, 0x03, 0x40)]
  {
    var data: seq<byte> := [0x40, 0x85, 0x04, 0x03];
    var input: MockReadSeeker := new MockReadSeeker(data);
    var lexer: MidiLexer := new MidiLexer(input);
    lexer.state := ExpectTrackEvent;
    NoteOffExample(data);
    finished, err := lexer.Next();
    state, events := lexer.state, lexer.events;
  }

  /** The NoteOff as the counting callback records it. */
  method NoteOffScenario() returns (callback: CountingLexerCallback)
    ensures callback.noteOff == 1 && callback.seen.time == 0x40
    ensures callback.seen.channel == 0x05 && callback.seen.pitch == 0x04 && callback.seen.velocity == 0x03
  {
    var finished, err, state, events := LexNoteOff();
    callback := new CountingLexerCallback();
    assert callback.Count(NoteOffCall) == 0;
    callback.Deliver(events[0]);
    assert callback.Count(NoteOffCall) == 1;
  }

  /** One call of next() that reads a four-byte track event from `pos`. */
  method NextTrackEvent(lexer: MidiLexer, ghost pos: nat, ghost e: Event)
    requires lexer.Valid() && lexer.state == ExpectTrackEvent && lexer.nextChunkHeader == 0
    requires lexer.input.position == pos
    requires NextStep(lexer.input.data, pos, ExpectTrackEvent, 0) == Step(None, ExpectTrackEvent, 0, pos + 4, [e])
    modifies lexer`state, lexer`nextChunkHeader, lexer`events, lexer.input`position
    ensures lexer.Valid() && lexer.state == ExpectTrackEvent && lexer.nextChunkHeader == 0
    ensures lexer.input.position == pos + 4 && lexer.events == old(lexer.events) + [e]
  {
    var finished, err := lexer.Next();
  }

  /** Three pitch wheel events, each read from where the last ended and each
      reported with its own delta-time, not a running total. */
  method LexPitchWheels(first: seq<byte>, second: seq<byte>, third: seq<byte>) returns (events: seq<Event>)
    requires first == [0x10, 0xE9, 0x00, 0x40] && second == [0x20, 0xE8, 0x34, 0x24] && third == [0x50, 0xE7, 0x00, 0x40]
    ensures events == [PitchWheel(0x09, 0, 0x2000, 0x10), PitchWheel(0x08, -0xDCC, 0x1234, 0x20),
                       PitchWheel(0x07, 0, 0x2000, 0x50)]
  {
    var input: MockReadSeeker := new MockReadSeeker(first + second + third);
    var lexer: MidiLexer := new MidiLexer(input);
    lexer.state := ExpectTrackEvent;
    PitchWheelExample(first, second, third, input.data);
    NextTrackEvent(lexer, 0, PitchWheel(0x09, 0, 0x2000, 0x10));
    NextTrackEvent(lexer, 4, PitchWheel(0x08, -0xDCC, 0x1234, 0x20));
    NextTrackEvent(lexer, 8, PitchWheel(0x07, 0, 0x2000, 0x50));
    events := lexer.events;
    AppendedOneByOne(PitchWheel(0x09, 0, 0x2000, 0x10), PitchWheel(0x08, -0xDCC, 0x1234, 0x20),
                     PitchWheel(0x07, 0, 0x2000, 0x50));
  }

  /** A log built by appending one event per call is the list of those events. */
  lemma AppendedOneByOne(a: Event, b: Event, c: Event)
    ensures [] + [a] + [b] + [c] == [a, b, c]
  {
  }

  /** What the counting callback holds after each of the three pitch wheel
      events: the event's own delta-time and values. */
  method PitchWheelScenario() returns (times: seq<uint32>, relatives: seq<int16>, absolutes: seq<uint16>)
    ensures times == [0x10, 0x20, 0x50]
    ensures relatives == [0, -0xDCC, 0]
    ensures absolutes == [0x2000, 0x1234, 0x2000]
  {
    var events := LexPitchWheels([0x10, 0xE9, 0x00, 0x40], [0x20, 0xE8, 0x34, 0x24], [0x50, 0xE7, 0x00, 0x40]);
    var callback: CountingLexerCallback := new CountingLexerCallback();
    times, relatives, absolutes := [], [], [];
    for i := 0 to 3
      invariant |times| == i && |relatives| == i && |absolutes| == i
      invariant forall j :: 0 <= j < i ==>
        times[j] == events[j].time && relatives[j] == events[j].relative && absolutes[j] == events[j].absolute
      modifies callback
    {
      callback.Deliver(events[i]);
      times, relatives, absolutes :=
        times + [callback.seen.time], relatives + [callback.seen.pitchWheelValue], absolutes + [callback.seen.pitchWheelValueAbsolute];
    }
  }
}
