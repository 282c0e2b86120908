/** The callback interface (midi_interfaces.go), as one constructor per callback.
    The lexer reports by appending these values to a log, in call order. */
module MidiInterfaces {
  import opened GoTypes
  import opened MidiStructs

  datatype Event =
    | Began
    | Finished
    | ErrorReading
    | ErrorOpeningFile
    | Header(header: HeaderData)
    | Track(chunk: ChunkHeader)
    | NoteOff(channel: uint8, pitch: uint8, velocity: uint8, time: uint32)
    | NoteOn(channel: uint8, pitch: uint8, velocity: uint8, time: uint32)
    | PolyphonicAfterTouch(channel: uint8, pitch: uint8, pressure: uint8, time: uint32)
    | ControlChange(channel: uint8, controller: uint8, value: uint8, time: uint32)
    | ProgramChange(channel: uint8, program: uint8, time: uint32)
    | ChannelAfterTouch(channel: uint8, pressure: uint8, time: uint32)
    | PitchWheel(channel: uint8, relative: int16, absolute: uint16, time: uint32)
    | SequenceNumber(channel: uint8, number: uint16, numberGiven: bool, time: uint32)
    | Text(channel: uint8, text: seq<byte>, time: uint32)
    | CopyrightText(channel: uint8, text: seq<byte>, time: uint32)
    | SequenceName(channel: uint8, text: seq<byte>, time: uint32)
    | TrackInstrumentName(channel: uint8, text: seq<byte>, time: uint32)
    | LyricText(channel: uint8, text: seq<byte>, time: uint32)
    | MarkerText(channel: uint8, text: seq<byte>, time: uint32)
    | CuePointText(channel: uint8, text: seq<byte>, time: uint32)
    | EndOfTrack(channel: uint8, time: uint32)

  /** The name of the callback method an event stands for. */
  datatype Callback =
    | BeganCall | FinishedCall | ErrorReadingCall | ErrorOpeningFileCall
    | HeaderCall | TrackCall
    | NoteOffCall | NoteOnCall | PolyphonicAfterTouchCall | ControlChangeCall
    | ProgramChangeCall | ChannelAfterTouchCall | PitchWheelCall
    | SequenceNumberCall | TextCall | CopyrightTextCall | SequenceNameCall
    | TrackInstrumentNameCall | LyricTextCall | MarkerTextCall | CuePointTextCall
    | EndOfTrackCall

  function CallbackOf(e: Event): Callback {
    match e
    case Began => BeganCall
    case Finished => FinishedCall
    case ErrorReading => ErrorReadingCall
    case ErrorOpeningFile => ErrorOpeningFileCall
    case Header(_) => HeaderCall
    case Track(_) => TrackCall
    case NoteOff(_, _, _, _) => NoteOffCall
    case NoteOn(_, _, _, _) => NoteOnCall
    case PolyphonicAfterTouch(_, _, _, _) => PolyphonicAfterTouchCall
    case ControlChange(_, _, _, _) => ControlChangeCall
    case ProgramChange(_, _, _) => ProgramChangeCall
    case ChannelAfterTouch(_, _, _) => ChannelAfterTouchCall
    case PitchWheel(_, _, _, _) => PitchWheelCall
    case SequenceNumber(_, _, _, _) => SequenceNumberCall
    case Text(_, _, _) => TextCall
    case CopyrightText(_, _, _) => CopyrightTextCall
    case SequenceName(_, _, _) => SequenceNameCall
    case TrackInstrumentName(_, _, _) => TrackInstrumentNameCall
    case LyricText(_, _, _) => LyricTextCall
    case MarkerText(_, _, _) => MarkerTextCall
    case CuePointText(_, _, _) => CuePointTextCall
    case EndOfTrack(_, _) => EndOfTrackCall
  }

  /** The in-track events carry a time; the stream-level ones do not. */
  predicate HasTime(e: Event) {
    !(e.Began? || e.Finished? || e.ErrorReading? || e.ErrorOpeningFile? || e.Header? || e.Track?)
  }

  /** The channel voice messages, status nibbles 0x8 to 0xE. */
  predicate IsChannelEvent(e: Event) {
    e.NoteOff? || e.NoteOn? || e.PolyphonicAfterTouch? || e.ControlChange? ||
    e.ProgramChange? || e.ChannelAfterTouch? || e.PitchWheel?
  }

  /** The seven text-carrying meta events, commands 0x01 to 0x07. */
  predicate IsTextEvent(e: Event) {
    e.Text? || e.CopyrightText? || e.SequenceName? || e.TrackInstrumentName? ||
    e.LyricText? || e.MarkerText? || e.CuePointText?
  }
}
