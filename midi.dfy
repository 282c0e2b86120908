/** The lexer of midi.go. One call of Next reads one item: the SMF header chunk,
    a chunk header, or one track event. It reports what it read by appending
    callback events to a log, in call order.

    The functions below say, for the bytes of the input and the position before
    the call, what one step does: the error it returns, the state it leaves, the
    cursor position, and the callbacks it makes. MidiLexer.Next is proved to do
    exactly that to the lexer and its cursor. */
module Midi {
  import opened GoTypes
  import opened MidiErrors
  import opened MidiStructs
  import opened MidiInterfaces
  import opened Mocks
  import opened Decoding
  import opened MidiFunctions

  /** ExpectHeader, ExpectChunk and ExpectTrackEvent are 0, 1 and 2 in Go. There
      is no finished or done state. */
  datatype LexerState = ExpectHeader | ExpectChunk | ExpectTrackEvent

  /** What one step returns and leaves behind. */
  datatype Step = Step(err: Option<Error>, state: LexerState, nextChunkHeader: int, pos: nat, emitted: seq<Event>)

  /** What one track event's data does, after its delta-time and status byte. */
  datatype Outcome = Outcome(err: Option<Error>, emitted: seq<Event>, pos: nat, endOfTrack: bool)

  // ---------------------------------------------------------------------------
  // ExpectHeader.

  /** A chunk header whose tag is not "MThd", including one too short to have a
      tag, is ExpectedMthd whatever went wrong reading it. After an "MThd" tag the
      header data is read from wherever the chunk header read stopped; its error
      is returned as is, and on success Began and Header are called and the lexer
      expects a chunk. The error then returned is the chunk header's, which is
      none whenever the header data could be read. */
  function HeaderStep(data: seq<byte>, pos: nat, nextChunkHeader: int): (s: Step)
    requires pos <= |data|
    ensures pos <= s.pos <= |data| && s.nextChunkHeader == nextChunkHeader
    ensures s.err.None? <==> s.emitted != []
    ensures s.err.None? ==>
      s.state == ExpectChunk && |s.emitted| == 2 && s.emitted[0] == Began && s.emitted[1].Header?
    ensures s.err.Some? ==> s.state == ExpectHeader
    ensures ChunkHeaderAt(data, pos).header.chunkType != MThd ==>
      s == Step(Some(ExpectedMthd), ExpectHeader, nextChunkHeader, ChunkHeaderAt(data, pos).pos, [])
  {
    var c := ChunkHeaderAt(data, pos);
    if c.header.chunkType != MThd then Step(Some(ExpectedMthd), ExpectHeader, nextChunkHeader, c.pos, [])
    else
      var h := HeaderDataAt(data, c.pos);
      match h.result
      case Err(e) => Step(Some(e), ExpectHeader, nextChunkHeader, h.pos, [])
      case Ok(header) =>
        Step(c.err, ExpectChunk, nextChunkHeader, h.pos, [Began, Header(header)])
  }

  // ---------------------------------------------------------------------------
  // ExpectChunk.

  /** A chunk header that cannot be read is returned as the error, with no
      callback and the state kept. Otherwise Track is called. An "MTrk" chunk
      moves to ExpectTrackEvent and sets nextChunkHeader to the chunk length plus
      the position the step started at. Any other chunk is skipped, and
      nextChunkHeader is reset to zero.

      This is the step as the Go code writes it: the skip is a seek relative to
      the cursor, just past the chunk header, by the chunk length plus the
      position the step started at, and its error is ignored. Only a chunk at
      position 0 is skipped exactly; see ChunkStep. */
  function ChunkStepAsWritten(data: seq<byte>, pos: nat, nextChunkHeader: int): (s: Step)
    requires pos <= |data|
    ensures pos <= s.pos <= |data|
    ensures var c := ChunkHeaderAt(data, pos);
      (c.err.Some? ==> s == Step(c.err, ExpectChunk, nextChunkHeader, |data|, [])) &&
      (c.err.None? ==> s.err.None? && s.emitted == [Track(c.header)]) &&
      (c.err.None? && c.header.chunkType == MTrk ==>
         s == Step(None, ExpectTrackEvent, c.header.length + pos, pos + 8, [Track(c.header)])) &&
      (c.err.None? && c.header.chunkType != MTrk ==>
         s.state == ExpectChunk && s.nextChunkHeader == 0 &&
         s.pos == (if pos + 8 + c.header.length + pos <= |data| then pos + 8 + c.header.length + pos else pos + 8))
  {
    var c := ChunkHeaderAt(data, pos);
    if c.err.Some? then Step(c.err, ExpectChunk, nextChunkHeader, c.pos, [])
    else
      var next := c.header.length + pos;
      if c.header.chunkType != MTrk then
        Step(None, ExpectChunk, 0, SeekSpec(|data|, c.pos, next, 1).position, [Track(c.header)])
      else
        Step(None, ExpectTrackEvent, next, c.pos, [Track(c.header)])
  }

  /** The ExpectChunk step with the skip over an unknown chunk as intended: a
      relative seek by the chunk length, landing on the byte after the chunk's
      data when the chunk fits in the input; a seek past the end fails and its
      error is still ignored. Everything else is as in ChunkStepAsWritten. */
  function ChunkStep(data: seq<byte>, pos: nat, nextChunkHeader: int): (s: Step)
    requires pos <= |data|
    ensures pos <= s.pos <= |data|
    ensures var c := ChunkHeaderAt(data, pos);
      (c.err.Some? ==> s == Step(c.err, ExpectChunk, nextChunkHeader, |data|, [])) &&
      (c.err.None? ==> s.err.None? && s.emitted == [Track(c.header)]) &&
      (c.err.None? && c.header.chunkType == MTrk ==>
         s == Step(None, ExpectTrackEvent, c.header.length + pos, pos + 8, [Track(c.header)])) &&
      (c.err.None? && c.header.chunkType != MTrk ==>
         s.state == ExpectChunk && s.nextChunkHeader == 0 &&
         s.pos == (if pos + 8 + c.header.length <= |data| then pos + 8 + c.header.length else pos + 8))
  {
    var c := ChunkHeaderAt(data, pos);
    if c.err.Some? then Step(c.err, ExpectChunk, nextChunkHeader, c.pos, [])
    else
      var next := c.header.length + pos;
      if c.header.chunkType != MTrk then
        Step(None, ExpectChunk, 0, SeekSpec(|data|, c.pos, c.header.length, 1).position, [Track(c.header)])
      else
        Step(None, ExpectTrackEvent, next, c.pos, [Track(c.header)])
  }

  // ---------------------------------------------------------------------------
  // ExpectTrackEvent.

  /** The channel voice messages the lexer decodes: types 0x8, 0x9, 0xA, 0xD and
      0xE read their data bytes and call the matching callback with the status
      byte's channel and the delta-time. Types 0xB and 0xC read and call nothing. */
  function ChannelEventAt(data: seq<byte>, pos: nat, mType: uint8, channel: uint8, time: uint32): (o: Outcome)
    requires pos <= |data|
    requires mType in {0x8, 0x9, 0xA, 0xD, 0xE}
    ensures pos <= o.pos <= |data| && !o.endOfTrack
    ensures o.err.Some? ==> o.emitted == [] && o.err == Some(UnexpectedEndOfFile)
    ensures o.err.None? ==>
      |o.emitted| == 1 && IsChannelEvent(o.emitted[0]) &&
      o.emitted[0].channel == channel && o.emitted[0].time == time
  {
    if mType == 0x8 || mType == 0x9 || mType == 0xA then
      var p := TwoUint7At(data, pos);
      match p.result
      case Err(e) => Outcome(Some(e), [], p.pos, false)
      case Ok((a, b)) =>
        var e := if mType == 0x8 then NoteOff(channel, a, b, time)
                 else if mType == 0x9 then NoteOn(channel, a, b, time)
                 else PolyphonicAfterTouch(channel, a, b, time);
        Outcome(None, [e], p.pos, false)
    else if mType == 0xD then
      var p := Uint7At(data, pos);
      match p.result
      case Err(e) => Outcome(Some(e), [], p.pos, false)
      case Ok(v) => Outcome(None, [ChannelAfterTouch(channel, v, time)], p.pos, false)
    else
      var p := PitchWheelAt(data, pos);
      match p.result
      case Err(e) => Outcome(Some(e), [], p.pos, false)
      case Ok((rel, abs)) => Outcome(None, [PitchWheel(channel, rel, abs, time)], p.pos, false)
  }

  /** The event a text meta command 0x01 to 0x07 is reported as. */
  function TextEvent(command: uint8, channel: uint8, text: seq<byte>, time: uint32): (e: Event)
    requires 0x01 <= command <= 0x07
    ensures IsTextEvent(e) && e.channel == channel && e.text == text && e.time == time
    ensures command == 0x01 <==> e.Text?
    ensures command == 0x02 <==> e.CopyrightText?
    ensures command == 0x03 <==> e.SequenceName?
    ensures command == 0x04 <==> e.TrackInstrumentName?
    ensures command == 0x05 <==> e.LyricText?
    ensures command == 0x06 <==> e.MarkerText?
    ensures command == 0x07 <==> e.CuePointText?
  {
    match command
    case 0x01 => Text(channel, text, time)
    case 0x02 => CopyrightText(channel, text, time)
    case 0x03 => SequenceName(channel, text, time)
    case 0x04 => TrackInstrumentName(channel, text, time)
    case 0x05 => LyricText(channel, text, time)
    case 0x06 => MarkerText(channel, text, time)
    case 0x07 => CuePointText(channel, text, time)
  }

  /** A meta event, after FF: a command byte, then for 0x00 a length byte and, if
      that is not zero, a uint16 sequence number; for 0x01 to 0x07 a text field.
      0x2F calls EndOfTrack and ends the track without reading its length byte.
      Every other command reads nothing more and calls nothing. */
  function MetaEventAt(data: seq<byte>, pos: nat, channel: uint8, time: uint32): (o: Outcome)
    requires pos <= |data|
    ensures pos <= o.pos <= |data|
    ensures o.err.Some? ==> o.emitted == [] && !o.endOfTrack
    ensures |o.emitted| <= 1
    ensures o.emitted != [] ==>
      HasTime(o.emitted[0]) && !IsChannelEvent(o.emitted[0]) &&
      o.emitted[0].channel == channel && o.emitted[0].time == time
    ensures o.endOfTrack <==> o.emitted != [] && o.emitted[0].EndOfTrack?
    ensures o.endOfTrack ==> o.pos == pos + 1
  {
    var command := Uint8At(data, pos);
    match command.result
    case Err(e) => Outcome(Some(e), [], command.pos, false)
    case Ok(c) =>
      if c == 0x00 then
        var length := Uint8At(data, command.pos);
        match length.result
        case Err(e) => Outcome(Some(e), [], length.pos, false)
        case Ok(n) =>
          if n == 0 then Outcome(None, [SequenceNumber(channel, 0, false, time)], length.pos, false)
          else
            var number := Uint16At(data, length.pos);
            match number.result
            case Err(e) => Outcome(Some(e), [], number.pos, false)
            case Ok(v) => Outcome(None, [SequenceNumber(channel, v, true, time)], number.pos, false)
      else if 0x01 <= c <= 0x07 then
        var text := TextAt(data, command.pos);
        match text.result
        case Err(e) => Outcome(Some(e), [], text.pos, false)
        case Ok(t) => Outcome(None, [TextEvent(c, channel, t, time)], text.pos, false)
      else if c == 0x2F then Outcome(None, [EndOfTrack(channel, time)], command.pos, true)
      else Outcome(None, [], command.pos, false)
  }

  /** The data of a track event with message type `mType`: channel messages,
      meta events when both nibbles are F, and nothing at all for every other
      type, including the type 0 a failed status byte read gives. */
  function EventDataAt(data: seq<byte>, pos: nat, mType: uint8, channel: uint8, time: uint32): (o: Outcome)
    requires pos <= |data|
    ensures pos <= o.pos <= |data| && |o.emitted| <= 1
    ensures o.err.Some? ==> o.emitted == [] && !o.endOfTrack
    ensures o.emitted != [] ==> HasTime(o.emitted[0]) && o.emitted[0].time == time
    ensures mType !in {0x8, 0x9, 0xA, 0xD, 0xE} && !(mType == 0xF && channel == 0xF) ==>
      o == Outcome(None, [], pos, false)
  {
    if mType in {0x8, 0x9, 0xA, 0xD, 0xE} then ChannelEventAt(data, pos, mType, channel, time)
    else if mType == 0xF && channel == 0xF then MetaEventAt(data, pos, channel, time)
    else Outcome(None, [], pos, false)
  }

  /** A track event: a variable-length delta-time, whose error is returned, then
      a status byte, whose error is not looked at (a failed read splits into type
      0 and channel 0), then the event's data. The delta-time is reported as read,
      never added to earlier ones. The lexer leaves the track only at EndOfTrack. */
  function TrackEventStep(data: seq<byte>, pos: nat, nextChunkHeader: int): (s: Step)
    requires pos <= |data|
    ensures pos <= s.pos <= |data| && s.nextChunkHeader == nextChunkHeader && |s.emitted| <= 1
    ensures s.err.Some? ==> s.emitted == [] && s.state == ExpectTrackEvent
    ensures s.state == ExpectChunk <==> s.emitted != [] && s.emitted[0].EndOfTrack?
    ensures s.state != ExpectHeader
    ensures VarLengthAt(data, pos).result.Err? ==>
      s == Step(Some(UnexpectedEndOfFile), ExpectTrackEvent, nextChunkHeader, |data|, [])
    ensures s.emitted != [] ==> HasTime(s.emitted[0]) && s.emitted[0].time == VarLengthAt(data, pos).result.value
  {
    var time := VarLengthAt(data, pos);
    match time.result
    case Err(e) => Step(Some(e), ExpectTrackEvent, nextChunkHeader, time.pos, [])
    case Ok(t) =>
      var status := StatusByteAt(data, time.pos);
      var (mType, channel) := if status.result.Ok? then status.result.value else (0, 0);
      var o := EventDataAt(data, status.pos, mType, channel, t);
      Step(o.err, if o.endOfTrack then ExpectChunk else ExpectTrackEvent, nextChunkHeader, o.pos, o.emitted)
  }

  /** One call of next() from `state`, with the cursor at `pos`. It never reports
      that the input is finished, so that result is not part of the step. */
  function NextStep(data: seq<byte>, pos: nat, state: LexerState, nextChunkHeader: int): (s: Step)
    requires pos <= |data|
    ensures pos <= s.pos <= |data| && |s.emitted| <= 2
    ensures s.err.Some? ==> s.emitted == [] && s.state == state
  {
    match state
    case ExpectHeader => HeaderStep(data, pos, nextChunkHeader)
    case ExpectChunk => ChunkStepAsWritten(data, pos, nextChunkHeader)
    case ExpectTrackEvent => TrackEventStep(data, pos, nextChunkHeader)
  }

  /** k successive calls of next(), as a caller that drives the lexer makes
      them: the callbacks add up, and the first error ends the run. */
  function Steps(data: seq<byte>, pos: nat, state: LexerState, nextChunkHeader: int, k: nat): (r: Step)
    requires pos <= |data|
    ensures pos <= r.pos <= |data| && |r.emitted| <= 2 * k
    decreases k
  {
    if k == 0 then Step(None, state, nextChunkHeader, pos, [])
    else
      var s := NextStep(data, pos, state, nextChunkHeader);
      if s.err.Some? then s
      else
        var r := Steps(data, s.pos, s.state, s.nextChunkHeader, k - 1);
        Step(r.err, r.state, r.nextChunkHeader, r.pos, s.emitted + r.emitted)
  }

  // ---------------------------------------------------------------------------
  // The lexer.

  /** The Go lexer also holds its callback; here the callbacks it makes are kept
      in `events`, in call order. */
  class MidiLexer {
    const input: MockReadSeeker
    var state: LexerState
    var nextChunkHeader: int
    var events: seq<Event>

    ghost predicate Valid()
      reads this, input
    {
      input.Valid()
    }

    /** NewMidiLexer: the Go zero values, so the lexer expects the header. */
    constructor (input: MockReadSeeker)
      requires input.Valid()
      ensures Valid()
      ensures this.input == input && state == ExpectHeader && nextChunkHeader == 0 && events == []
    {
      this.input := input;
      state := ExpectHeader;
      nextChunkHeader := 0;
      events := [];
    }

    /** next(). Go first asks the cursor for its position with Seek(0, 1) and
        returns that call's error; on a valid cursor there is none. */
    method Next() returns (finished: bool, err: Option<Error>)
      requires Valid()
      modifies this`state, this`nextChunkHeader, this`events, input`position
      ensures Valid() && !finished
      ensures var s := NextStep(input.data, old(input.position), old(state), old(nextChunkHeader));
        err == s.err && state == s.state && nextChunkHeader == s.nextChunkHeader &&
        input.position == s.pos && events == old(events) + s.emitted
    {
      finished := false;
      SeekRelative(|input.data|, input.position, 0);
      var currentPosition, seekErr := input.Seek(0, 1);
      assert seekErr.None? && currentPosition == input.position;
      match state
      case ExpectHeader =>
        err := LexHeader();
      case ExpectChunk =>
        err := LexChunk(currentPosition);
      case ExpectTrackEvent =>
        err := LexTrackEvent();
    }

    method LexHeader() returns (err: Option<Error>)
      requires Valid()
      modifies this`state, this`events, input`position
      ensures Valid()
      ensures var s := HeaderStep(input.data, old(input.position), nextChunkHeader);
        err == s.err && state == (if s.err.None? then s.state else old(state)) &&
        input.position == s.pos && events == old(events) + s.emitted
    {
      var chunkHeader;
      chunkHeader, err := ParseChunkHeader(input);
      if chunkHeader.chunkType != MThd {
        err := Some(ExpectedMthd);
        return;
      }
      var header := ParseHeaderData(input);
      if header.Err? {
        return Some(header.error);
      }
      events := events + [Began];
      events := events + [Header(header.value)];
      state := ExpectChunk;
    }

    method LexChunk(currentPosition: int) returns (err: Option<Error>)
      requires Valid() && currentPosition == input.position
      modifies this`state, this`nextChunkHeader, this`events, input`position
      ensures Valid()
      ensures var s := ChunkStepAsWritten(input.data, old(input.position), old(nextChunkHeader));
        err == s.err && state == (if s.err.None? then s.state else old(state)) &&
        nextChunkHeader == s.nextChunkHeader && input.position == s.pos && events == old(events) + s.emitted
    {
      var chunkHeader, chunkErr := ParseChunkHeader(input);
      if chunkErr.Some? {
        return chunkErr;
      }
      events := events + [Track(chunkHeader)];
      nextChunkHeader := chunkHeader.length + currentPosition;
      if chunkHeader.chunkType != MTrk {
        var ignoredPosition, ignoredErr := input.Seek(nextChunkHeader, 1);
        state := ExpectChunk;
        nextChunkHeader := 0;
      } else {
        state := ExpectTrackEvent;
      }
      err := None;
    }

    method LexTrackEvent() returns (err: Option<Error>)
      requires Valid()
      modifies this`state, this`events, input`position
      ensures Valid()
      ensures var s := TrackEventStep(input.data, old(input.position), nextChunkHeader);
        err == s.err && state == (if s.state == ExpectChunk then ExpectChunk else old(state)) &&
        input.position == s.pos && events == old(events) + s.emitted
    {
      var time := ParseVarLength(input);
      if time.Err? {
        return Some(time.error);
      }
      var status := ReadStatusByte(input);
      var (mType, channel) := if status.Ok? then status.value else (0, 0);
      if mType in {0x8, 0x9, 0xA, 0xD, 0xE} {
        err := LexChannelEvent(mType, channel, time.value);
      } else if mType == 0xF && channel == 0xF {
        err := LexMetaEvent(channel, time.value);
      } else {
        err := None;
      }
    }

    method LexChannelEvent(mType: uint8, channel: uint8, time: uint32) returns (err: Option<Error>)
      requires Valid() && mType in {0x8, 0x9, 0xA, 0xD, 0xE}
      modifies this`events, input`position
      ensures Valid()
      ensures var o := ChannelEventAt(input.data, old(input.position), mType, channel, time);
        err == o.err && input.position == o.pos && events == old(events) + o.emitted
    {
      if mType == 0x8 || mType == 0x9 || mType == 0xA {
        var values := ParseTwoUint7(input);
        if values.Err? {
          return Some(values.error);
        }
        var (pitch, velocity) := values.value;
        if mType == 0x8 {
          events := events + [NoteOff(channel, pitch, velocity, time)];
        } else if mType == 0x9 {
          events := events + [NoteOn(channel, pitch, velocity, time)];
        } else {
          events := events + [PolyphonicAfterTouch(channel, pitch, velocity, time)];
        }
      } else if mType == 0xD {
        var value := ParseUint7(input);
        if value.Err? {
          return Some(value.error);
        }
        events := events + [ChannelAfterTouch(channel, value.value, time)];
      } else {
        var value := ParsePitchWheelValue(input);
        if value.Err? {
          return Some(value.error);
        }
        events := events + [PitchWheel(channel, value.value.0, value.value.1, time)];
      }
      err := None;
    }

    method LexMetaEvent(channel: uint8, time: uint32) returns (err: Option<Error>)
      requires Valid()
      modifies this`state, this`events, input`position
      ensures Valid()
      ensures var o := MetaEventAt(input.data, old(input.position), channel, time);
        err == o.err && state == (if o.endOfTrack then ExpectChunk else old(state)) &&
        input.position == o.pos && events == old(events) + o.emitted
    {
      var command := ParseUint8(input);
      if command.Err? {
        return Some(command.error);
      }
      var c := command.value;
      if c == 0x00 {
        var length := ParseUint8(input);
        if length.Err? {
          return Some(length.error);
        }
        if length.value == 0 {
          events := events + [SequenceNumber(channel, 0, false, time)];
          return None;
        }
        var sequenceNumber := ParseUint16(input);
        if sequenceNumber.Err? {
          return Some(sequenceNumber.error);
        }
        events := events + [SequenceNumber(channel, sequenceNumber.value, true, time)];
        return None;
      } else if 0x01 <= c <= 0x07 {
        var text := ParseText(input);
        if text.Err? {
          return Some(text.error);
        }
        events := events + [TextEvent(c, channel, text.value, time)];
        return None;
      } else if c == 0x2F {
        events := events + [EndOfTrack(channel, time)];
        state := ExpectChunk;
        return None;
      }
      err := None;
    }
  }
}
