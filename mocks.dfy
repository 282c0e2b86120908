/** The in-memory cursor and the counting callback the lexer is driven with (mocks.go). */
module Mocks {
  import opened GoTypes
  import opened MidiErrors
  import opened MidiStructs
  import opened MidiInterfaces

  /** How many bytes one Read delivers into a buffer of `want` bytes when
      `available` bytes are left: the request, clamped to what is left. */
  function ReadCount(want: nat, available: nat): (n: nat)
    ensures n <= want && n <= available
    ensures n == want || n == available
  {
    if want > available then available else want
  }

  /** What a Seek returns, and the position it leaves behind. */
  datatype SeekOutcome = SeekOutcome(ret: int, err: Option<Error>, position: int)

  /** Seek on `length` bytes from `position`. Whence 0 is from the start, 1 from
      the current position, 2 backwards from the end; any other whence does nothing
      and returns Go's zero results. A target past the end fails with io.EOF and
      does not move. */
  function SeekSpec(length: nat, position: int, offset: int, whence: int): (s: SeekOutcome)
    ensures s.err.Some? ==> s.ret == -1 && s.err == Some(Eof) && s.position == position
    ensures s.err.None? && whence in {0, 1, 2} ==> s.ret == s.position
    ensures whence !in {0, 1, 2} ==> s == SeekOutcome(0, None, position)
    ensures 0 <= position <= length && offset >= 0 ==> 0 <= s.position <= length
    ensures whence == 1 && offset >= 0 ==> position <= s.position
  {
    if whence == 0 then
      if offset > length then SeekOutcome(-1, Some(Eof), position)
      else SeekOutcome(offset, None, offset)
    else if whence == 1 then
      if offset + position > length then SeekOutcome(-1, Some(Eof), position)
      else SeekOutcome(position + offset, None, position + offset)
    else if whence == 2 then
      if offset > length then SeekOutcome(-1, Some(Eof), position)
      else SeekOutcome(length - offset, None, length - offset)
    else
      SeekOutcome(0, None, position)
  }

  /** The three relative-seek facts the lexer relies on. */
  lemma SeekRelative(length: nat, position: nat, offset: nat)
    requires position <= length
    ensures SeekSpec(length, position, 0, 1) == SeekOutcome(position, None, position)
    ensures position + offset <= length ==>
      SeekSpec(length, position, offset, 1) == SeekOutcome(position + offset, None, position + offset)
    ensures position + offset > length ==>
      SeekSpec(length, position, offset, 1) == SeekOutcome(-1, Some(Eof), position)
  {
  }

  /** A byte buffer read and sought by hand. Go keeps a pointer to the slice; it is
      never written, so it is a constant here. */
  class MockReadSeeker {
    const data: seq<byte>
    var position: int

    ghost predicate Valid()
      reads this
    {
      0 <= position <= |data|
    }

    /** NewMockReadSeeker */
    constructor (data: seq<byte>)
      ensures this.data == data && position == 0
      ensures Valid()
    {
      this.data := data;
      position := 0;
    }

    /** Copies the next min(len(p), bytes left) bytes into the front of `p`, leaves
        the rest of `p` alone and advances by as many. The Go error result is
        always nil, so it is not returned. Go would panic on a position outside
        the data, which only a Seek with a negative offset can produce. */
    method Read(p: array<byte>) returns (n: nat)
      requires Valid()
      modifies this`position, p
      ensures Valid()
      ensures n == ReadCount(p.Length, |data| - old(position))
      ensures position == old(position) + n
      ensures p[..n] == data[old(position)..position]
      ensures p[n..] == old(p[n..])
    {
      var amount := p.Length;
      var maxAmount := |data| - position;
      if amount > maxAmount {
        amount := maxAmount;
      }
      forall i | 0 <= i < amount {
        p[i] := data[position + i];
      }
      position := position + amount;
      n := amount;
    }

    method Seek(offset: int, whence: int) returns (ret: int, err: Option<Error>)
      modifies this`position
      ensures SeekOutcome(ret, err, position) == SeekSpec(|data|, old(position), offset, whence)
    {
      if whence == 0 {
        if offset > |data| {
          return -1, Some(Eof);
        }
        position := offset;
        return position, None;
      } else if whence == 1 {
        if offset + position > |data| {
          return -1, Some(Eof);
        }
        position := position + offset;
        return position, None;
      } else if whence == 2 {
        if offset > |data| {
          return -1, Some(Eof);
        }
        position := |data| - offset;
        return position, None;
      }
      return 0, None;
    }
  }

  /** A callback that counts each call and keeps the most recent arguments. Each
      method's modifies clause names exactly the fields it writes. */
  /** The most recent values CountingLexerCallback keeps, one per field. */
  datatype LastSeen = LastSeen(
    headerData: HeaderData, chunkHeader: ChunkHeader, pitch: uint8, channel: uint8, time: uint32,
    velocity: uint8, pressure: uint8, textValue: seq<byte>, pitchWheelValue: int16,
    pitchWheelValueAbsolute: uint16, sequenceNumberGiven: bool, sequenceNumberValue: uint16)

  /** The values kept after the callback `e` stands for, starting from `v`:
      each method of mocks.go writes its own fields (WrittenByFields). */
  function WrittenBy(v: LastSeen, e: Event): LastSeen
  {
    match e
    case Began => v
    case Finished => v
    case ErrorReading => v
    case ErrorOpeningFile => v
    case Header(h) => v.(headerData := h)
    case Track(c) => v.(chunkHeader := c)
    case NoteOff(c, p, vel, t) => v.(pitch := p, channel := c, velocity := vel, time := t)
    case NoteOn(c, p, vel, t) => v.(pitch := p, channel := c, velocity := vel, time := t)
    case PolyphonicAfterTouch(c, p, pr, t) => v.(channel := c, pitch := p, pressure := pr, time := t)
    case ControlChange(_, _, _, _) => v
    case ProgramChange(_, _, _) => v
    case ChannelAfterTouch(c, pr, t) => v.(channel := c, pressure := pr, time := t)
    case PitchWheel(c, r, a, t) => v.(pitchWheelValue := r, pitchWheelValueAbsolute := a, time := t, channel := c)
    case SequenceNumber(_, n, g, t) => v.(time := t, sequenceNumberValue := n, sequenceNumberGiven := g)
    case Text(_, x, t) => v.(textValue := x, time := t)
    case CopyrightText(_, x, t) => v.(textValue := x, time := t)
    case SequenceName(_, x, t) => v.(textValue := x, time := t)
    case TrackInstrumentName(_, x, t) => v.(textValue := x, time := t)
    case LyricText(_, x, t) => v.(textValue := x, time := t)
    case MarkerText(_, x, t) => v.(textValue := x, time := t)
    case CuePointText(_, x, t) => v.(textValue := x, time := t)
    case EndOfTrack(_, t) => v.(time := t)
  }

  /** Field by field, what each callback writes. Every field is written by
      exactly the callbacks named here and kept by all the others: ControlChange,
      ProgramChange and the lifecycle callbacks other than Header and Track write
      nothing, and SequenceNumber and the text callbacks leave the channel. */
  lemma WrittenByFields(v: LastSeen, e: Event)
    ensures var w := WrittenBy(v, e);
      w.time == (if HasTime(e) && !e.ControlChange? && !e.ProgramChange? then e.time else v.time) &&
      w.channel ==
        (if e.NoteOff? || e.NoteOn? || e.PolyphonicAfterTouch? || e.ChannelAfterTouch? || e.PitchWheel?
         then e.channel else v.channel) &&
      w.pitch == (if e.NoteOff? || e.NoteOn? || e.PolyphonicAfterTouch? then e.pitch else v.pitch) &&
      w.velocity == (if e.NoteOff? || e.NoteOn? then e.velocity else v.velocity) &&
      w.pressure == (if e.PolyphonicAfterTouch? || e.ChannelAfterTouch? then e.pressure else v.pressure) &&
      w.textValue == (if IsTextEvent(e) then e.text else v.textValue) &&
      w.headerData == (if e.Header? then e.header else v.headerData) &&
      w.chunkHeader == (if e.Track? then e.chunk else v.chunkHeader) &&
      w.pitchWheelValue == (if e.PitchWheel? then e.relative else v.pitchWheelValue) &&
      w.pitchWheelValueAbsolute == (if e.PitchWheel? then e.absolute else v.pitchWheelValueAbsolute) &&
      w.sequenceNumberValue == (if e.SequenceNumber? then e.number else v.sequenceNumberValue) &&
      w.sequenceNumberGiven == (if e.SequenceNumber? then e.numberGiven else v.sequenceNumberGiven)
  {
  }

  class CountingLexerCallback {
    var header: int
    var track: int
    var began: int
    var finished: int
    var errorReading: int
    var errorOpeningFile: int
    var noteOff: int
    var noteOn: int
    var polyphonicAfterTouch: int
    var controlChange: int
    var programChange: int
    var channelAfterTouch: int
    var pitchWheel: int
    var endOfTrack: int
    var text: int
    var copyrightText: int
    var sequenceName: int
    var trackInstrumentName: int
    var lyricText: int
    var markerText: int
    var cuePointText: int
    var sequenceNumber: int

    /** The most recent values: headerData, chunkHeader, pitch and the rest. */
    var seen: LastSeen

    /** `new(CountingLexerCallback)`: every field at its zero value. */
    constructor ()
      ensures forall c :: Count(c) == 0
      ensures seen.headerData == HeaderData(0, 0, 0, 0, 0) && seen.chunkHeader == EmptyChunkHeader
      ensures seen.pitch == 0 && seen.channel == 0 && seen.time == 0 && seen.velocity == 0 && seen.pressure == 0
      ensures seen.textValue == [] && seen.pitchWheelValue == 0 && seen.pitchWheelValueAbsolute == 0
      ensures !seen.sequenceNumberGiven && seen.sequenceNumberValue == 0
    {
      header, track, began, finished, errorReading, errorOpeningFile := 0, 0, 0, 0, 0, 0;
      noteOff, noteOn, polyphonicAfterTouch, controlChange := 0, 0, 0, 0;
      programChange, channelAfterTouch, pitchWheel, endOfTrack := 0, 0, 0, 0;
      text, copyrightText, sequenceName, trackInstrumentName := 0, 0, 0, 0;
      lyricText, markerText, cuePointText, sequenceNumber := 0, 0, 0, 0;
      seen := LastSeen(HeaderData(0, 0, 0, 0, 0), EmptyChunkHeader, 0, 0, 0, 0, 0, [], 0, 0, false, 0);
    }

    /** The counter a callback increments. */
    function Count(c: Callback): int
      reads this
    {
      match c
      case BeganCall => began
      case FinishedCall => finished
      case ErrorReadingCall => errorReading
      case ErrorOpeningFileCall => errorOpeningFile
      case HeaderCall => header
      case TrackCall => track
      case NoteOffCall => noteOff
      case NoteOnCall => noteOn
      case PolyphonicAfterTouchCall => polyphonicAfterTouch
      case ControlChangeCall => controlChange
      case ProgramChangeCall => programChange
      case ChannelAfterTouchCall => channelAfterTouch
      case PitchWheelCall => pitchWheel
      case SequenceNumberCall => sequenceNumber
      case TextCall => text
      case CopyrightTextCall => copyrightText
      case SequenceNameCall => sequenceName
      case TrackInstrumentNameCall => trackInstrumentName
      case LyricTextCall => lyricText
      case MarkerTextCall => markerText
      case CuePointTextCall => cuePointText
      case EndOfTrackCall => endOfTrack
    }

    method Header(header: HeaderData)
      modifies this`header, this`seen
      ensures this.header == old(this.header) + 1 && seen.headerData == header
      ensures forall c :: Count(c) == old(Count(c)) + (if c == HeaderCall then 1 else 0)
      ensures seen == WrittenBy(old(seen), Event.Header(header))
    {
      this.header := this.header + 1;
      seen := seen.(headerData := header);
    }

    method Track(header: ChunkHeader)
      modifies this`track, this`seen
      ensures track == old(track) + 1 && seen.chunkHeader == header
      ensures forall c :: Count(c) == old(Count(c)) + (if c == TrackCall then 1 else 0)
      ensures seen == WrittenBy(old(seen), Event.Track(header))
    {
      track := track + 1;
      seen := seen.(chunkHeader := header);
    }

    method Began()
      modifies this`began
      ensures began == old(began) + 1
      ensures forall c :: Count(c) == old(Count(c)) + (if c == BeganCall then 1 else 0)
      ensures seen == WrittenBy(old(seen), Event.Began)
    {
      began := began + 1;
    }

    method Finished()
      modifies this`finished
      ensures finished == old(finished) + 1
      ensures forall c :: Count(c) == old(Count(c)) + (if c == FinishedCall then 1 else 0)
      ensures seen == WrittenBy(old(seen), Event.Finished)
    {
      finished := finished + 1;
    }

    method ErrorReading()
      modifies this`errorReading
      ensures errorReading == old(errorReading) + 1
      ensures forall c :: Count(c) == old(Count(c)) + (if c == ErrorReadingCall then 1 else 0)
      ensures seen == WrittenBy(old(seen), Event.ErrorReading)
    {
      errorReading := errorReading + 1;
    }

    method ErrorOpeningFile()
      modifies this`errorOpeningFile
      ensures errorOpeningFile == old(errorOpeningFile) + 1
      ensures forall c :: Count(c) == old(Count(c)) + (if c == ErrorOpeningFileCall then 1 else 0)
      ensures seen == WrittenBy(old(seen), Event.ErrorOpeningFile)
    {
      errorOpeningFile := errorOpeningFile + 1;
    }

    method NoteOff(channel: uint8, pitch: uint8, velocity: uint8, time: uint32)
      modifies this`noteOff, this`seen
      ensures noteOff == old(noteOff) + 1
      ensures seen.pitch == pitch && seen.channel == channel && seen.velocity == velocity && seen.time == time
      ensures forall c :: Count(c) == old(Count(c)) + (if c == NoteOffCall then 1 else 0)
      ensures seen == WrittenBy(old(seen), Event.NoteOff(channel, pitch, velocity, time))
    {
      noteOff := noteOff + 1;
      seen := seen.(pitch := pitch, channel := channel, velocity := velocity, time := time);
    }

    method NoteOn(channel: uint8, pitch: uint8, velocity: uint8, time: uint32)
      modifies this`noteOn, this`seen
      ensures noteOn == old(noteOn) + 1
      ensures seen.pitch == pitch && seen.channel == channel && seen.velocity == velocity && seen.time == time
      ensures forall c :: Count(c) == old(Count(c)) + (if c == NoteOnCall then 1 else 0)
      ensures seen == WrittenBy(old(seen), Event.NoteOn(channel, pitch, velocity, time))
    {
      noteOn := noteOn + 1;
      seen := seen.(pitch := pitch, channel := channel, velocity := velocity, time := time);
    }

    method PolyphonicAfterTouch(channel: uint8, pitch: uint8, pressure: uint8, time: uint32)
      modifies this`polyphonicAfterTouch, this`seen
      ensures polyphonicAfterTouch == old(polyphonicAfterTouch) + 1
      ensures seen.channel == channel && seen.pitch == pitch && seen.pressure == pressure && seen.time == time
      ensures forall c :: Count(c) == old(Count(c)) + (if c == PolyphonicAfterTouchCall then 1 else 0)
      ensures seen == WrittenBy(old(seen), Event.PolyphonicAfterTouch(channel, pitch, pressure, time))
    {
      polyphonicAfterTouch := polyphonicAfterTouch + 1;
      seen := seen.(channel := channel, pitch := pitch, pressure := pressure, time := time);
    }

    /** Counts the call and records none of its values. */
    method ControlChange(channel: uint8, controller: uint8, value: uint8, time: uint32)
      modifies this`controlChange
      ensures controlChange == old(controlChange) + 1
      ensures forall c :: Count(c) == old(Count(c)) + (if c == ControlChangeCall then 1 else 0)
      ensures seen == WrittenBy(old(seen), Event.ControlChange(channel, controller, value, time))
    {
      controlChange := controlChange + 1;
    }

    /** Counts the call and records none of its values. */
    method ProgramChange(channel: uint8, program: uint8, time: uint32)
      modifies this`programChange
      ensures programChange == old(programChange) + 1
      ensures forall c :: Count(c) == old(Count(c)) + (if c == ProgramChangeCall then 1 else 0)
      ensures seen == WrittenBy(old(seen), Event.ProgramChange(channel, program, time))
    {
      programChange := programChange + 1;
    }

    method ChannelAfterTouch(channel: uint8, pressure: uint8, time: uint32)
      modifies this`channelAfterTouch, this`seen
      ensures channelAfterTouch == old(channelAfterTouch) + 1
      ensures seen.channel == channel && seen.pressure == pressure && seen.time == time
      ensures forall c :: Count(c) == old(Count(c)) + (if c == ChannelAfterTouchCall then 1 else 0)
      ensures seen == WrittenBy(old(seen), Event.ChannelAfterTouch(channel, pressure, time))
    {
      channelAfterTouch := channelAfterTouch + 1;
      seen := seen.(channel := channel, pressure := pressure, time := time);
    }

    method PitchWheel(channel: uint8, value: int16, absValue: uint16, time: uint32)
      modifies this`pitchWheel, this`seen
      ensures pitchWheel == old(pitchWheel) + 1
      ensures seen.pitchWheelValue == value && seen.pitchWheelValueAbsolute == absValue
      ensures seen.time == time && seen.channel == channel
      ensures forall c :: Count(c) == old(Count(c)) + (if c == PitchWheelCall then 1 else 0)
      ensures seen == WrittenBy(old(seen), Event.PitchWheel(channel, value, absValue, time))
    {
      pitchWheel := pitchWheel + 1;
      seen := seen.(pitchWheelValue := value, pitchWheelValueAbsolute := absValue, time := time, channel := channel);
    }

    /** Records the number and the flag but not the channel. */
    method SequenceNumber(channel: uint8, number: uint16, numberGiven: bool, time: uint32)
      modifies this`sequenceNumber, this`seen
      ensures sequenceNumber == old(sequenceNumber) + 1
      ensures seen.time == time && seen.sequenceNumberValue == number && seen.sequenceNumberGiven == numberGiven
      ensures forall c :: Count(c) == old(Count(c)) + (if c == SequenceNumberCall then 1 else 0)
      ensures seen == WrittenBy(old(seen), Event.SequenceNumber(channel, number, numberGiven, time))
    {
      sequenceNumber := sequenceNumber + 1;
      seen := seen.(time := time, sequenceNumberValue := number, sequenceNumberGiven := numberGiven);
    }

    method Text(channel: uint8, text: seq<byte>, time: uint32)
      modifies this`text, this`seen
      ensures this.text == old(this.text) + 1 && seen.textValue == text && seen.time == time
      ensures forall c :: Count(c) == old(Count(c)) + (if c == TextCall then 1 else 0)
      ensures seen == WrittenBy(old(seen), Event.Text(channel, text, time))
    {
      this.text := this.text + 1;
      seen := seen.(textValue := text, time := time);
    }

    method CopyrightText(channel: uint8, text: seq<byte>, time: uint32)
      modifies this`copyrightText, this`seen
      ensures copyrightText == old(copyrightText) + 1 && seen.textValue == text && seen.time == time
      ensures forall c :: Count(c) == old(Count(c)) + (if c == CopyrightTextCall then 1 else 0)
      ensures seen == WrittenBy(old(seen), Event.CopyrightText(channel, text, time))
    {
      copyrightText := copyrightText + 1;
      seen := seen.(textValue := text, time := time);
    }

    method SequenceName(channel: uint8, text: seq<byte>, time: uint32)
      modifies this`sequenceName, this`seen
      ensures sequenceName == old(sequenceName) + 1 && seen.textValue == text && seen.time == time
      ensures forall c :: Count(c) == old(Count(c)) + (if c == SequenceNameCall then 1 else 0)
      ensures seen == WrittenBy(old(seen), Event.SequenceName(channel, text, time))
    {
      sequenceName := sequenceName + 1;
      seen := seen.(textValue := text, time := time);
    }

    method TrackInstrumentName(channel: uint8, text: seq<byte>, time: uint32)
      modifies this`trackInstrumentName, this`seen
      ensures trackInstrumentName == old(trackInstrumentName) + 1 && seen.textValue == text && seen.time == time
      ensures forall c :: Count(c) == old(Count(c)) + (if c == TrackInstrumentNameCall then 1 else 0)
      ensures seen == WrittenBy(old(seen), Event.TrackInstrumentName(channel, text, time))
    {
      trackInstrumentName := trackInstrumentName + 1;
      seen := seen.(textValue := text, time := time);
    }

    method LyricText(channel: uint8, text: seq<byte>, time: uint32)
      modifies this`lyricText, this`seen
      ensures lyricText == old(lyricText) + 1 && seen.textValue == text && seen.time == time
      ensures forall c :: Count(c) == old(Count(c)) + (if c == LyricTextCall then 1 else 0)
      ensures seen == WrittenBy(old(seen), Event.LyricText(channel, text, time))
    {
      lyricText := lyricText + 1;
      seen := seen.(textValue := text, time := time);
    }

    method MarkerText(channel: uint8, text: seq<byte>, time: uint32)
      modifies this`markerText, this`seen
      ensures markerText == old(markerText) + 1 && seen.textValue == text && seen.time == time
      ensures forall c :: Count(c) == old(Count(c)) + (if c == MarkerTextCall then 1 else 0)
      ensures seen == WrittenBy(old(seen), Event.MarkerText(channel, text, time))
    {
      markerText := markerText + 1;
      seen := seen.(textValue := text, time := time);
    }

    method CuePointText(channel: uint8, text: seq<byte>, time: uint32)
      modifies this`cuePointText, this`seen
      ensures cuePointText == old(cuePointText) + 1 && seen.textValue == text && seen.time == time
      ensures forall c :: Count(c) == old(Count(c)) + (if c == CuePointTextCall then 1 else 0)
      ensures seen == WrittenBy(old(seen), Event.CuePointText(channel, text, time))
    {
      cuePointText := cuePointText + 1;
      seen := seen.(textValue := text, time := time);
    }

    method EndOfTrack(channel: uint8, time: uint32)
      modifies this`endOfTrack, this`seen
      ensures endOfTrack == old(endOfTrack) + 1 && seen.time == time
      ensures forall c :: Count(c) == old(Count(c)) + (if c == EndOfTrackCall then 1 else 0)
      ensures seen == WrittenBy(old(seen), Event.EndOfTrack(channel, time))
    {
      endOfTrack := endOfTrack + 1;
      seen := seen.(time := time);
    }

    /** The interface dispatch: hands one logged event to the method of the same
        name. Exactly that method's counter goes up by one, and the kept values
        change as WrittenBy says and in no other way. */
    method Deliver(e: Event)
      modifies this
      ensures forall c :: Count(c) == old(Count(c)) + (if c == CallbackOf(e) then 1 else 0)
      ensures seen == WrittenBy(old(seen), e)
    {
      if !HasTime(e) {
        DeliverLifecycle(e);
      } else if e.NoteOff? || e.NoteOn? || e.PolyphonicAfterTouch? {
        DeliverNote(e);
      } else if IsChannelEvent(e) {
        DeliverControl(e);
      } else if e.SequenceNumber? || e.EndOfTrack? || e.Text? || e.CopyrightText? {
        DeliverMeta(e);
      } else {
        DeliverNamedText(e);
      }
    }

    method DeliverLifecycle(e: Event)
      requires !HasTime(e)
      modifies this
      ensures forall c :: Count(c) == old(Count(c)) + (if c == CallbackOf(e) then 1 else 0)
      ensures seen == WrittenBy(old(seen), e)
    {
      match e
      case Began => Began();
      case Finished => Finished();
      case ErrorReading => ErrorReading();
      case ErrorOpeningFile => ErrorOpeningFile();
      case Header(h) => this.Header(h);
      case Track(h) => this.Track(h);
    }

    method DeliverNote(e: Event)
      requires e.NoteOff? || e.NoteOn? || e.PolyphonicAfterTouch?
      modifies this
      ensures forall c :: Count(c) == old(Count(c)) + (if c == CallbackOf(e) then 1 else 0)
      ensures seen == WrittenBy(old(seen), e)
    {
      match e
      case NoteOff(c, p, v, t) => this.NoteOff(c, p, v, t);
      case NoteOn(c, p, v, t) => this.NoteOn(c, p, v, t);
      case PolyphonicAfterTouch(c, p, v, t) => this.PolyphonicAfterTouch(c, p, v, t);
    }

    method DeliverControl(e: Event)
      requires e.ControlChange? || e.ProgramChange? || e.ChannelAfterTouch? || e.PitchWheel?
      modifies this
      ensures forall c :: Count(c) == old(Count(c)) + (if c == CallbackOf(e) then 1 else 0)
      ensures seen == WrittenBy(old(seen), e)
    {
      match e
      case ControlChange(c, k, v, t) => this.ControlChange(c, k, v, t);
      case ProgramChange(c, p, t) => this.ProgramChange(c, p, t);
      case ChannelAfterTouch(c, v, t) => this.ChannelAfterTouch(c, v, t);
      case PitchWheel(c, v, a, t) => this.PitchWheel(c, v, a, t);
    }

    method DeliverMeta(e: Event)
      requires e.SequenceNumber? || e.EndOfTrack? || e.Text? || e.CopyrightText?
      modifies this
      ensures forall c :: Count(c) == old(Count(c)) + (if c == CallbackOf(e) then 1 else 0)
      ensures seen == WrittenBy(old(seen), e)
    {
      match e
      case SequenceNumber(c, n, g, t) => this.SequenceNumber(c, n, g, t);
      case EndOfTrack(c, t) => this.EndOfTrack(c, t);
      case Text(c, s, t) => this.Text(c, s, t);
      case CopyrightText(c, s, t) => this.CopyrightText(c, s, t);
    }

    method DeliverNamedText(e: Event)
      requires e.SequenceName? || e.TrackInstrumentName? || e.LyricText? || e.MarkerText? || e.CuePointText?
      modifies this
      ensures forall c :: Count(c) == old(Count(c)) + (if c == CallbackOf(e) then 1 else 0)
      ensures seen == WrittenBy(old(seen), e)
    {
      match e
      case SequenceName(c, s, t) => this.SequenceName(c, s, t);
      case TrackInstrumentName(c, s, t) => this.TrackInstrumentName(c, s, t);
      case LyricText(c, s, t) => this.LyricText(c, s, t);
      case MarkerText(c, s, t) => this.MarkerText(c, s, t);
      case CuePointText(c, s, t) => this.CuePointText(c, s, t);
    }
  }
}
