/** Properties of the lexer's steps: each state's transitions and errors, the
    skip over unknown chunks, and the round trip from an encoded track event
    back to the one callback the lexer makes for it. */
module MidiLemmas {
  import opened GoTypes
  import opened MidiErrors
  import opened MidiStructs
  import opened MidiValues
  import opened MidiInterfaces
  import opened Mocks
  import opened Decoding
  import opened DecodingLemmas
  import opened Midi

  // ---------------------------------------------------------------------------
  // An encoder for the track events the lexer decodes.

  /** The events the lexer can report from a track, with fields in the ranges
      their encodings can carry. Meta events come with channel nibble 0xF, which
      the lexer passes on as their channel. A sequence number that is not given
      is 0. */
  predicate Encodable(e: Event) {
    match e
    case NoteOff(c, p, v, _) => c < 0x10 && p < 0x80 && v < 0x80
    case NoteOn(c, p, v, _) => c < 0x10 && p < 0x80 && v < 0x80
    case PolyphonicAfterTouch(c, p, v, _) => c < 0x10 && p < 0x80 && v < 0x80
    case ChannelAfterTouch(c, v, _) => c < 0x10 && v < 0x80
    case PitchWheel(c, rel, abs, _) => c < 0x10 && abs <= 0x3FFF && rel == abs - 0x2000
    case SequenceNumber(c, n, given, _) => c == 0xF && (given || n == 0)
    case EndOfTrack(c, _) => c == 0xF
    case _ => IsTextEvent(e) && e.channel == 0xF && |e.text| < 0x1_0000_0000
  }

  /** The command byte of a text meta event. */
  function TextCommand(e: Event): (c: uint8)
    requires IsTextEvent(e)
    ensures 0x01 <= c <= 0x07 && TextEvent(c, e.channel, e.text, e.time) == e
  {
    if e.Text? then 0x01 else if e.CopyrightText? then 0x02 else if e.SequenceName? then 0x03
    else if e.TrackInstrumentName? then 0x04 else if e.LyricText? then 0x05
    else if e.MarkerText? then 0x06 else 0x07
  }

  /** Stands in for the body of the events no track encodes; Encodable rules
      them out. */
  const NoBody: seq<byte> := []

  /** A track event's bytes after its delta-time. */
  function EventBody(e: Event): (s: seq<byte>)
    requires Encodable(e)
    ensures |s| >= 2
  {
    match e
    case NoteOff(c, p, v, _) => [0x80 + c, p, v]
    case NoteOn(c, p, v, _) => [0x90 + c, p, v]
    case PolyphonicAfterTouch(c, p, v, _) => [0xA0 + c, p, v]
    case ChannelAfterTouch(c, v, _) => [0xD0 + c, v]
    case PitchWheel(c, _, abs, _) => [0xE0 + c, abs % 0x80, abs / 0x80]
    case SequenceNumber(_, n, given, _) =>
      if given then [0xFF, 0x00, 0x02] + Uint16Bytes(n) else [0xFF, 0x00, 0x00]
    case EndOfTrack(_, _) => [0xFF, 0x2F, 0x00]
    case Text(_, _, _) | CopyrightText(_, _, _) | SequenceName(_, _, _) | TrackInstrumentName(_, _, _)
       | LyricText(_, _, _) | MarkerText(_, _, _) | CuePointText(_, _, _) =>
      [0xFF, TextCommand(e)] + VarLengthBytes(|e.text|) + e.text
    case _ => NoBody
  }

  /** A whole track event: the shortest encoding of its delta-time, then its body. */
  function EventBytes(e: Event): (s: seq<byte>)
    requires Encodable(e)
  {
    VarLengthBytes(e.time) + EventBody(e)
  }

  /** What the lexer reads of an event: all of it, except the length byte of an
      end of track. */
  function ConsumedLength(e: Event): (n: nat)
    requires Encodable(e)
  {
    |EventBytes(e)| - (if e.EndOfTrack? then 1 else 0)
  }

  // ---------------------------------------------------------------------------
  // Track events decoded.

  lemma StatusBytes(t: uint8, c: uint8)
    requires t < 0x10 && c < 0x10
    ensures StatusType(t * 0x10 + c) == t && StatusChannel(t * 0x10 + c) == c
  {
    DivMod(t, c, 0x10);
  }

  /** The delta-time of an encoded event, and where its body lies. */
  lemma DeltaOfEncoding(t: uint32, body: seq<byte>, pre: seq<byte>, rest: seq<byte>)
    ensures var data := pre + VarLengthBytes(t) + body + rest;
      var q := |pre| + |VarLengthBytes(t)|;
      VarLengthAt(data, |pre|) == Parsed(Ok(t), q) &&
      q + |body| <= |data| && forall i :: 0 <= i < |body| ==> data[q + i] == body[i]
  {
    var data := pre + VarLengthBytes(t) + body + rest;
    assert data == pre + VarLengthBytes(t) + (body + rest);
    VarLengthRoundTrip(t, pre, body + rest);
    SliceOfConcat(pre + VarLengthBytes(t), body, rest);
  }

  /** After a delta-time that could be read, the status byte is split and the
      event's data is read after it. */
  lemma TrackEventAfterDelta(data: seq<byte>, pos: nat, n: int, t: uint32, q: nat, mType: uint8, channel: uint8)
    requires pos <= |data| && VarLengthAt(data, pos) == Parsed(Ok(t), q) && q < |data|
    requires mType < 0x10 && channel < 0x10 && data[q] == mType * 0x10 + channel
    ensures TrackEventStep(data, pos, n) ==
      var o := EventDataAt(data, q + 1, mType, channel, t);
      Step(o.err, if o.endOfTrack then ExpectChunk else ExpectTrackEvent, n, o.pos, o.emitted)
  {
    StatusBytes(mType, channel);
    assert StatusByteAt(data, q) == Parsed(Ok((mType, channel)), q + 1);
  }

  /** The note messages read two data bytes. */
  lemma NoteData(data: seq<byte>, pos: nat, mType: uint8, c: uint8, t: uint32)
    requires pos + 2 <= |data| && data[pos] < 0x80 && data[pos + 1] < 0x80
    requires mType in {0x8, 0x9, 0xA}
    ensures EventDataAt(data, pos, mType, c, t) ==
      Outcome(None, [if mType == 0x8 then NoteOff(c, data[pos], data[pos + 1], t)
                     else if mType == 0x9 then NoteOn(c, data[pos], data[pos + 1], t)
                     else PolyphonicAfterTouch(c, data[pos], data[pos + 1], t)], pos + 2, false)
  {
  }

  lemma ChannelPressureData(data: seq<byte>, pos: nat, c: uint8, t: uint32)
    requires pos + 1 <= |data| && data[pos] < 0x80
    ensures EventDataAt(data, pos, 0xD, c, t) == Outcome(None, [ChannelAfterTouch(c, data[pos], t)], pos + 1, false)
  {
  }

  lemma PitchWheelData(data: seq<byte>, pos: nat, c: uint8, t: uint32, abs: uint16)
    requires abs <= 0x3FFF && pos + 2 <= |data| && data[pos] == abs % 0x80 && data[pos + 1] == abs / 0x80
    ensures EventDataAt(data, pos, 0xE, c, t) == Outcome(None, [PitchWheel(c, abs - 0x2000, abs, t)], pos + 2, false)
  {
  }

  /** The note message with status nibble mType. */
  function NoteEvent(mType: uint8, c: uint8, p: uint8, v: uint8, t: uint32): (e: Event)
    requires mType in {0x8, 0x9, 0xA}
    ensures IsChannelEvent(e) && e.channel == c && e.time == t
  {
    if mType == 0x8 then NoteOff(c, p, v, t)
    else if mType == 0x9 then NoteOn(c, p, v, t)
    else PolyphonicAfterTouch(c, p, v, t)
  }

  // One step over a track event, given the bytes at its status byte `q`.

  lemma NoteStep(data: seq<byte>, pos: nat, n: int, t: uint32, q: nat, mType: uint8, c: uint8)
    requires pos <= |data| && VarLengthAt(data, pos) == Parsed(Ok(t), q) && q + 3 <= |data|
    requires mType in {0x8, 0x9, 0xA} && c < 0x10 && data[q] == mType * 0x10 + c
    requires data[q + 1] < 0x80 && data[q + 2] < 0x80
    ensures TrackEventStep(data, pos, n) ==
            Step(None, ExpectTrackEvent, n, q + 3, [NoteEvent(mType, c, data[q + 1], data[q + 2], t)])
  {
    TrackEventAfterDelta(data, pos, n, t, q, mType, c);
    NoteData(data, q + 1, mType, c, t);
  }

  lemma ChannelPressureStep(data: seq<byte>, pos: nat, n: int, t: uint32, q: nat, c: uint8)
    requires pos <= |data| && VarLengthAt(data, pos) == Parsed(Ok(t), q) && q + 2 <= |data|
    requires c < 0x10 && data[q] == 0xD * 0x10 + c && data[q + 1] < 0x80
    ensures TrackEventStep(data, pos, n) ==
            Step(None, ExpectTrackEvent, n, q + 2, [ChannelAfterTouch(c, data[q + 1], t)])
  {
    TrackEventAfterDelta(data, pos, n, t, q, 0xD, c);
    ChannelPressureData(data, q + 1, c, t);
  }

  lemma PitchWheelStep(data: seq<byte>, pos: nat, n: int, t: uint32, q: nat, c: uint8, abs: uint16)
    requires pos <= |data| && VarLengthAt(data, pos) == Parsed(Ok(t), q) && q + 3 <= |data|
    requires c < 0x10 && data[q] == 0xE * 0x10 + c && abs <= 0x3FFF
    requires data[q + 1] == abs % 0x80 && data[q + 2] == abs / 0x80
    ensures TrackEventStep(data, pos, n) ==
            Step(None, ExpectTrackEvent, n, q + 3, [PitchWheel(c, abs - 0x2000, abs, t)])
  {
    TrackEventAfterDelta(data, pos, n, t, q, 0xE, c);
    PitchWheelData(data, q + 1, c, t, abs);
  }

  /** The status byte FF of a meta event, after a delta-time. */
  lemma MetaStep(data: seq<byte>, pos: nat, n: int, t: uint32, q: nat)
    requires pos <= |data| && VarLengthAt(data, pos) == Parsed(Ok(t), q) && q < |data| && data[q] == 0xFF
    ensures TrackEventStep(data, pos, n) ==
      var o := MetaEventAt(data, q + 1, 0xF, t);
      Step(o.err, if o.endOfTrack then ExpectChunk else ExpectTrackEvent, n, o.pos, o.emitted)
  {
    assert data[q] == 0xF * 0x10 + 0xF;
    TrackEventAfterDelta(data, pos, n, t, q, 0xF, 0xF);
    assert EventDataAt(data, q + 1, 0xF, 0xF, t) == MetaEventAt(data, q + 1, 0xF, t);
  }

  lemma SequenceNumberData(data: seq<byte>, pos: nat, channel: uint8, t: uint32, v: uint16)
    requires pos + 2 <= |data| && data[pos] == 0x00 && data[pos + 1] == 0x02
    requires Uint16At(data, pos + 2) == Parsed(Ok(v), pos + 4)
    ensures MetaEventAt(data, pos, channel, t) == Outcome(None, [SequenceNumber(channel, v, true, t)], pos + 4, false)
  {
  }

  lemma NoSequenceNumberData(data: seq<byte>, pos: nat, channel: uint8, t: uint32)
    requires pos + 2 <= |data| && data[pos] == 0x00 && data[pos + 1] == 0x00
    ensures MetaEventAt(data, pos, channel, t) == Outcome(None, [SequenceNumber(channel, 0, false, t)], pos + 2, false)
  {
  }

  lemma TextData(data: seq<byte>, pos: nat, channel: uint8, t: uint32, text: seq<byte>, end: nat)
    requires pos + 1 <= |data| && 0x01 <= data[pos] <= 0x07
    requires TextAt(data, pos + 1) == Parsed(Ok(text), end)
    ensures MetaEventAt(data, pos, channel, t) == Outcome(None, [TextEvent(data[pos], channel, text, t)], end, false)
  {
  }

  lemma EndOfTrackData(data: seq<byte>, pos: nat, channel: uint8, t: uint32)
    requires pos + 1 <= |data| && data[pos] == 0x2F
    ensures MetaEventAt(data, pos, channel, t) == Outcome(None, [EndOfTrack(channel, t)], pos + 1, true)
  {
  }

  // ---------------------------------------------------------------------------
  // Encoded events read back.

  lemma NoteRoundTripStep(mType: uint8, c: uint8, p: uint8, v: uint8, t: uint32, pre: seq<byte>, rest: seq<byte>, n: int)
    requires mType in {0x8, 0x9, 0xA} && c < 0x10 && p < 0x80 && v < 0x80
    ensures TrackEventStep(pre + VarLengthBytes(t) + [mType * 0x10 + c, p, v] + rest, |pre|, n) ==
            Step(None, ExpectTrackEvent, n, |pre| + |VarLengthBytes(t)| + 3, [NoteEvent(mType, c, p, v, t)])
  {
    var body := [mType * 0x10 + c, p, v];
    var data := pre + VarLengthBytes(t) + body + rest;
    var q := |pre| + |VarLengthBytes(t)|;
    DeltaOfEncoding(t, body, pre, rest);
    assert data[q] == body[0] && data[q + 1] == p && data[q + 2] == v;
    NoteStep(data, |pre|, n, t, q, mType, c);
  }

  /** An event's encoding, between what comes before and after it, is its
      delta-time and then its body. */
  lemma EncodedAs(e: Event, body: seq<byte>, pre: seq<byte>, rest: seq<byte>)
    requires Encodable(e) && EventBody(e) == body
    ensures pre + EventBytes(e) + rest == pre + VarLengthBytes(e.time) + body + rest
  {
  }

  lemma NoteEventRoundTrip(e: Event, pre: seq<byte>, rest: seq<byte>, n: int)
    requires Encodable(e) && (e.NoteOff? || e.NoteOn? || e.PolyphonicAfterTouch?)
    ensures TrackEventStep(pre + EventBytes(e) + rest, |pre|, n) ==
            Step(None, ExpectTrackEvent, n, |pre| + |EventBytes(e)|, [e])
  {
    if e.NoteOff? {
      NoteCase(e, 0x8, e.velocity, pre, rest, n);
    } else if e.NoteOn? {
      NoteCase(e, 0x9, e.velocity, pre, rest, n);
    } else {
      NoteCase(e, 0xA, e.pressure, pre, rest, n);
    }
  }

  /** NoteEventRoundTrip for one message type `mType`, whose third byte is `v`. */
  lemma NoteCase(e: Event, mType: uint8, v: uint8, pre: seq<byte>, rest: seq<byte>, n: int)
    requires Encodable(e) && (e.NoteOff? || e.NoteOn? || e.PolyphonicAfterTouch?)
    requires mType in {0x8, 0x9, 0xA} && e.channel < 0x10 && e.pitch < 0x80 && v < 0x80
    requires NoteEvent(mType, e.channel, e.pitch, v, e.time) == e
    requires EventBody(e) == [mType * 0x10 + e.channel, e.pitch, v]
    ensures TrackEventStep(pre + EventBytes(e) + rest, |pre|, n) ==
            Step(None, ExpectTrackEvent, n, |pre| + |EventBytes(e)|, [e])
  {
    EncodedAs(e, [mType * 0x10 + e.channel, e.pitch, v], pre, rest);
    NoteRoundTripStep(mType, e.channel, e.pitch, v, e.time, pre, rest, n);
  }

  lemma ChannelPressureRoundTripStep(c: uint8, v: uint8, t: uint32, pre: seq<byte>, rest: seq<byte>, n: int)
    requires c < 0x10 && v < 0x80
    ensures TrackEventStep(pre + VarLengthBytes(t) + [0xD * 0x10 + c, v] + rest, |pre|, n) ==
            Step(None, ExpectTrackEvent, n, |pre| + |VarLengthBytes(t)| + 2, [ChannelAfterTouch(c, v, t)])
  {
    var body := [0xD * 0x10 + c, v];
    var data := pre + VarLengthBytes(t) + body + rest;
    var q := |pre| + |VarLengthBytes(t)|;
    DeltaOfEncoding(t, body, pre, rest);
    assert data[q] == body[0] && data[q + 1] == v;
    ChannelPressureStep(data, |pre|, n, t, q, c);
  }

  lemma ChannelPressureEventRoundTrip(e: Event, pre: seq<byte>, rest: seq<byte>, n: int)
    requires Encodable(e) && e.ChannelAfterTouch?
    ensures TrackEventStep(pre + EventBytes(e) + rest, |pre|, n) ==
            Step(None, ExpectTrackEvent, n, |pre| + |EventBytes(e)|, [e])
  {
    var body := [0xD * 0x10 + e.channel, e.pressure];
    assert EventBody(e) == body;
    EncodedAs(e, body, pre, rest);
    ChannelPressureRoundTripStep(e.channel, e.pressure, e.time, pre, rest, n);
  }

  lemma PitchWheelRoundTripStep(c: uint8, abs: uint16, t: uint32, pre: seq<byte>, rest: seq<byte>, n: int)
    requires c < 0x10 && abs <= 0x3FFF
    ensures TrackEventStep(pre + VarLengthBytes(t) + [0xE * 0x10 + c, abs % 0x80, abs / 0x80] + rest, |pre|, n) ==
            Step(None, ExpectTrackEvent, n, |pre| + |VarLengthBytes(t)| + 3, [PitchWheel(c, abs - 0x2000, abs, t)])
  {
    var body := [0xE * 0x10 + c, abs % 0x80, abs / 0x80];
    var data := pre + VarLengthBytes(t) + body + rest;
    var q := |pre| + |VarLengthBytes(t)|;
    DeltaOfEncoding(t, body, pre, rest);
    assert data[q] == body[0] && data[q + 1] == body[1] && data[q + 2] == body[2];
    PitchWheelStep(data, |pre|, n, t, q, c, abs);
  }

  lemma PitchWheelEventRoundTrip(e: Event, pre: seq<byte>, rest: seq<byte>, n: int)
    requires Encodable(e) && e.PitchWheel?
    ensures TrackEventStep(pre + EventBytes(e) + rest, |pre|, n) ==
            Step(None, ExpectTrackEvent, n, |pre| + |EventBytes(e)|, [e])
  {
    var body := [0xE * 0x10 + e.channel, e.absolute % 0x80, e.absolute / 0x80];
    assert EventBody(e) == body;
    EncodedAs(e, body, pre, rest);
    PitchWheelRoundTripStep(e.channel, e.absolute, e.time, pre, rest, n);
  }

  /** Every channel event the lexer reports reads back from its encoding, which
      the lexer consumes whole, staying in the track. */
  lemma ChannelEventRoundTrip(e: Event, pre: seq<byte>, rest: seq<byte>, n: int)
    requires Encodable(e) && IsChannelEvent(e)
    ensures TrackEventStep(pre + EventBytes(e) + rest, |pre|, n) ==
            Step(None, ExpectTrackEvent, n, |pre| + |EventBytes(e)|, [e])
  {
    if e.ChannelAfterTouch? {
      ChannelPressureEventRoundTrip(e, pre, rest, n);
    } else if e.PitchWheel? {
      PitchWheelEventRoundTrip(e, pre, rest, n);
    } else {
      NoteEventRoundTrip(e, pre, rest, n);
    }
  }

  lemma SequenceNumberRoundTripStep(v: uint16, t: uint32, pre: seq<byte>, rest: seq<byte>, n: int)
    ensures var body := [0xFF, 0x00, 0x02] + Uint16Bytes(v);
      TrackEventStep(pre + VarLengthBytes(t) + body + rest, |pre|, n) ==
      Step(None, ExpectTrackEvent, n, |pre| + |VarLengthBytes(t)| + 5, [SequenceNumber(0xF, v, true, t)])
  {
    var head: seq<byte> := [0xFF, 0x00, 0x02];
    var body := head + Uint16Bytes(v);
    var data := pre + VarLengthBytes(t) + body + rest;
    var q := |pre| + |VarLengthBytes(t)|;
    DeltaOfEncoding(t, body, pre, rest);
    assert data[q] == body[0] && data[q + 1] == body[1] && data[q + 2] == body[2];
    assert data == (pre + VarLengthBytes(t) + head) + Uint16Bytes(v) + rest;
    Uint16RoundTrip(v, pre + VarLengthBytes(t) + head, rest);
    MetaStep(data, |pre|, n, t, q);
    SequenceNumberData(data, q + 1, 0xF, t, v);
  }

  lemma SequenceNumberEventRoundTrip(e: Event, pre: seq<byte>, rest: seq<byte>, n: int)
    requires Encodable(e) && e.SequenceNumber? && e.numberGiven
    ensures TrackEventStep(pre + EventBytes(e) + rest, |pre|, n) ==
            Step(None, ExpectTrackEvent, n, |pre| + |EventBytes(e)|, [e])
  {
    var body := [0xFF, 0x00, 0x02] + Uint16Bytes(e.number);
    assert EventBody(e) == body;
    EncodedAs(e, body, pre, rest);
    SequenceNumberRoundTripStep(e.number, e.time, pre, rest, n);
  }

  lemma ShortMetaRoundTripStep(command: uint8, last: uint8, t: uint32, pre: seq<byte>, rest: seq<byte>, n: int)
    requires (command == 0x00 && last == 0x00) || command == 0x2F
    ensures TrackEventStep(pre + VarLengthBytes(t) + [0xFF, command, last] + rest, |pre|, n) ==
            if command == 0x00 then
              Step(None, ExpectTrackEvent, n, |pre| + |VarLengthBytes(t)| + 3, [SequenceNumber(0xF, 0, false, t)])
            else
              Step(None, ExpectChunk, n, |pre| + |VarLengthBytes(t)| + 2, [EndOfTrack(0xF, t)])
  {
    var body := [0xFF, command, last];
    var data := pre + VarLengthBytes(t) + body + rest;
    var q := |pre| + |VarLengthBytes(t)|;
    DeltaOfEncoding(t, body, pre, rest);
    assert data[q] == body[0] && data[q + 1] == body[1] && data[q + 2] == body[2];
    MetaStep(data, |pre|, n, t, q);
    if command == 0x00 {
      NoSequenceNumberData(data, q + 1, 0xF, t);
    } else {
      EndOfTrackData(data, q + 1, 0xF, t);
    }
  }

  lemma NoSequenceNumberEventRoundTrip(e: Event, pre: seq<byte>, rest: seq<byte>, n: int)
    requires Encodable(e) && e.SequenceNumber? && !e.numberGiven
    ensures TrackEventStep(pre + EventBytes(e) + rest, |pre|, n) ==
            Step(None, ExpectTrackEvent, n, |pre| + |EventBytes(e)|, [e])
  {
    assert EventBody(e) == [0xFF, 0x00, 0x00];
    assert pre + EventBytes(e) + rest == pre + VarLengthBytes(e.time) + [0xFF, 0x00, 0x00] + rest;
    ShortMetaRoundTripStep(0x00, 0x00, e.time, pre, rest, n);
  }

  lemma Regroup(a: seq<byte>, b: seq<byte>, c: seq<byte>, d: seq<byte>, r: seq<byte>)
    ensures a + (b + c + d) + r == (a + b) + c + d + r
  {
  }

  /** A text meta event with the given command byte. */
  lemma TextRoundTripStep(command: uint8, text: seq<byte>, t: uint32, pre: seq<byte>, rest: seq<byte>, n: int)
    requires 0x01 <= command <= 0x07 && |text| < 0x1_0000_0000
    ensures var body := [0xFF, command] + VarLengthBytes(|text|) + text;
      TrackEventStep(pre + VarLengthBytes(t) + body + rest, |pre|, n) ==
      Step(None, ExpectTrackEvent, n, |pre| + |VarLengthBytes(t)| + |body|, [TextEvent(command, 0xF, text, t)])
  {
    var head: seq<byte> := [0xFF, command];
    var body := head + VarLengthBytes(|text|) + text;
    var data := pre + VarLengthBytes(t) + body + rest;
    var q := |pre| + |VarLengthBytes(t)|;
    DeltaOfEncoding(t, body, pre, rest);
    assert data[q] == body[0] && data[q + 1] == body[1];
    Regroup(pre + VarLengthBytes(t), head, VarLengthBytes(|text|), text, rest);
    TextRoundTrip(text, pre + VarLengthBytes(t) + head, rest);
    MetaStep(data, |pre|, n, t, q);
    TextData(data, q + 1, 0xF, t, text, q + |body|);
  }

  lemma TextEventRoundTrip(e: Event, pre: seq<byte>, rest: seq<byte>, n: int)
    requires Encodable(e) && IsTextEvent(e)
    ensures TrackEventStep(pre + EventBytes(e) + rest, |pre|, n) ==
            Step(None, ExpectTrackEvent, n, |pre| + |EventBytes(e)|, [e])
  {
    var command := TextCommand(e);
    var body := [0xFF, command] + VarLengthBytes(|e.text|) + e.text;
    assert EventBody(e) == body;
    EncodedAs(e, body, pre, rest);
    TextRoundTripStep(command, e.text, e.time, pre, rest, n);
  }

  lemma EndOfTrackEventRoundTrip(e: Event, pre: seq<byte>, rest: seq<byte>, n: int)
    requires Encodable(e) && e.EndOfTrack?
    ensures TrackEventStep(pre + EventBytes(e) + rest, |pre|, n) ==
            Step(None, ExpectChunk, n, |pre| + |EventBytes(e)| - 1, [e])
  {
    assert EventBody(e) == [0xFF, 0x2F, 0x00];
    assert pre + EventBytes(e) + rest == pre + VarLengthBytes(e.time) + [0xFF, 0x2F, 0x00] + rest;
    ShortMetaRoundTripStep(0x2F, 0x00, e.time, pre, rest, n);
  }

  /** Every event the lexer reports from a track reads back from its encoding:
      one step from ExpectTrackEvent makes exactly that one callback, with no
      error, keeps nextChunkHeader, consumes the event (all but the length byte
      of an end of track), and leaves the track exactly at an end of track. */
  lemma TrackEventRoundTrip(e: Event, pre: seq<byte>, rest: seq<byte>, n: int)
    requires Encodable(e)
    ensures NextStep(pre + EventBytes(e) + rest, |pre|, ExpectTrackEvent, n) ==
            Step(None, if e.EndOfTrack? then ExpectChunk else ExpectTrackEvent, n, |pre| + ConsumedLength(e), [e])
  {
    if IsChannelEvent(e) {
      ChannelEventRoundTrip(e, pre, rest, n);
    } else if e.SequenceNumber? && e.numberGiven {
      SequenceNumberEventRoundTrip(e, pre, rest, n);
    } else if e.SequenceNumber? {
      NoSequenceNumberEventRoundTrip(e, pre, rest, n);
    } else if e.EndOfTrack? {
      EndOfTrackEventRoundTrip(e, pre, rest, n);
    } else {
      TextEventRoundTrip(e, pre, rest, n);
    }
  }

  // ---------------------------------------------------------------------------
  // ExpectHeader.

  lemma HeaderDataErrors(data: seq<byte>, pos: nat)
    requires pos <= |data|
    ensures HeaderDataAt(data, pos).result.Err? ==>
      HeaderDataAt(data, pos).result.error in {UnexpectedEndOfFile, UnsupportedSmfFormat}
  {
  }

  /** The header step fails with ExpectedMthd exactly when the input does not
      hold "MThd" at the cursor, and succeeds exactly when it does and the header
      data after the eight-byte chunk header can be read. The chunk length is not
      looked at. */
  lemma HeaderStepOutcomes(data: seq<byte>, pos: nat, n: int)
    requires pos <= |data|
    ensures HeaderStep(data, pos, n).err == Some(ExpectedMthd) <==>
            !(pos + 4 <= |data| && data[pos..pos + 4] == MThd)
    ensures HeaderStep(data, pos, n).err.None? <==>
            pos + 8 <= |data| && data[pos..pos + 4] == MThd && HeaderDataAt(data, pos + 8).result.Ok?
  {
    var c := ChunkHeaderAt(data, pos);
    assert EmptyChunkHeader.chunkType != MThd;
    if c.header.chunkType == MThd {
      HeaderDataErrors(data, c.pos);
      if c.err.Some? {
        assert c.pos == |data|;
        assert HeaderDataAt(data, c.pos).result.Err?;
      }
    }
  }

  /** A header chunk followed by valid header data: Began, then Header with that
      data, and the lexer expects a chunk, fourteen bytes on. */
  lemma HeaderRoundTrip(h: HeaderData, length: uint32, pre: seq<byte>, rest: seq<byte>, n: int)
    requires ValidHeaderData(h)
    ensures HeaderStep(pre + ChunkHeaderBytes(ChunkHeader(MThd, length)) + HeaderDataBytes(h) + rest, |pre|, n) ==
            Step(None, ExpectChunk, n, |pre| + 14, [Began, Header(h)])
  {
    var chunk := ChunkHeaderBytes(ChunkHeader(MThd, length));
    var data := pre + chunk + HeaderDataBytes(h) + rest;
    assert data == pre + chunk + (HeaderDataBytes(h) + rest);
    ChunkHeaderRoundTrip(ChunkHeader(MThd, length), pre, HeaderDataBytes(h) + rest);
    HeaderDataRoundTrip(h, pre + chunk, rest);
  }

  // ---------------------------------------------------------------------------
  // ExpectChunk.

  /** The step as written and the corrected step differ only in where an
      unknown chunk's skip lands: they agree exactly when the chunk header
      cannot be read, the chunk is a track, it starts at position 0, the
      corrected skip is already past the end of the input (then neither seek
      moves the cursor), or the chunk is empty and the written skip is past the
      end. */
  lemma ChunkStepsAgree(data: seq<byte>, pos: nat, n: int)
    requires pos <= |data|
    ensures var c := ChunkHeaderAt(data, pos);
      ChunkStepAsWritten(data, pos, n) == ChunkStep(data, pos, n) <==>
        c.err.Some? || c.header.chunkType == MTrk || pos == 0 || |data| < pos + 8 + c.header.length ||
        (c.header.length == 0 && |data| < pos + 8 + pos)
  {
    var c := ChunkHeaderAt(data, pos);
    if c.err.None? && c.header.chunkType != MTrk {
      assert ChunkStepAsWritten(data, pos, n).pos == ChunkStep(data, pos, n).pos <==>
        pos == 0 || |data| < pos + 8 + c.header.length || (c.header.length == 0 && |data| < pos + 8 + pos);
    }
  }

  /** A track chunk header: Track is called with it, the lexer enters the track
      just after the header and records the chunk length plus the start
      position. The corrected step does the same. */
  lemma TrackChunkRoundTrip(length: uint32, pre: seq<byte>, rest: seq<byte>, n: int)
    ensures var data := pre + ChunkHeaderBytes(ChunkHeader(MTrk, length)) + rest;
      ChunkStepAsWritten(data, |pre|, n) == ChunkStep(data, |pre|, n) ==
        Step(None, ExpectTrackEvent, length + |pre|, |pre| + 8, [Track(ChunkHeader(MTrk, length))])
  {
    ChunkHeaderRoundTrip(ChunkHeader(MTrk, length), pre, rest);
  }

  /** A chunk of any other type is reported with Track and skipped whole: the
      lexer expects the next chunk right after its data. */
  lemma UnknownChunkSkipped(tag: seq<byte>, body: seq<byte>, pre: seq<byte>, rest: seq<byte>, n: int)
    requires |tag| == 4 && tag != MTrk && |body| < 0x1_0000_0000
    ensures ChunkStep(pre + ChunkHeaderBytes(ChunkHeader(tag, |body|)) + body + rest, |pre|, n) ==
            Step(None, ExpectChunk, 0, |pre| + 8 + |body|, [Track(ChunkHeader(tag, |body|))])
  {
    var h := ChunkHeader(tag, |body|);
    var data := pre + ChunkHeaderBytes(h) + body + rest;
    assert data == pre + ChunkHeaderBytes(h) + (body + rest);
    ChunkHeaderRoundTrip(h, pre, body + rest);
  }

  /** As written, the same chunk is skipped exactly only at position 0; further
      on, the seek overshoots by the start position, or, past the end of the
      input, fails and leaves the cursor on the chunk's data. */
  lemma UnknownChunkSkippedAsWritten(tag: seq<byte>, body: seq<byte>, pre: seq<byte>, rest: seq<byte>, n: int)
    requires |tag| == 4 && tag != MTrk && |body| < 0x1_0000_0000
    ensures var data := pre + ChunkHeaderBytes(ChunkHeader(tag, |body|)) + body + rest;
      ChunkStepAsWritten(data, |pre|, n).pos ==
        if |pre| + 8 + |body| + |pre| <= |data| then |pre| + 8 + |body| + |pre| else |pre| + 8
  {
    var h := ChunkHeaderBytes(ChunkHeader(tag, |body|));
    var data := pre + h + body + rest;
    assert data == pre + h + (body + rest);
    ChunkHeaderRoundTrip(ChunkHeader(tag, |body|), pre, body + rest);
  }

  // ---------------------------------------------------------------------------
  // ExpectTrackEvent: what is read and ignored.

  /** A delta-time at the very end of the input: the status byte cannot be read,
      which the lexer does not notice, so the step reports nothing and succeeds. */
  lemma StatusByteMissing(t: uint32, pre: seq<byte>, n: int)
    ensures TrackEventStep(pre + VarLengthBytes(t), |pre|, n) ==
            Step(None, ExpectTrackEvent, n, |pre| + |VarLengthBytes(t)|, [])
  {
    VarLengthRoundTrip(t, pre, []);
    assert pre + VarLengthBytes(t) + [] == pre + VarLengthBytes(t);
  }

  /** Status bytes below 0x80, control and program changes (0xB, 0xC), and F
      bytes other than FF: the status byte is read and nothing else. */
  lemma IgnoredStatus(data: seq<byte>, pos: nat, n: int, t: uint32, q: nat, mType: uint8, channel: uint8)
    requires pos <= |data| && VarLengthAt(data, pos) == Parsed(Ok(t), q) && q < |data|
    requires mType < 0x10 && channel < 0x10 && data[q] == mType * 0x10 + channel
    requires mType < 0x8 || mType == 0xB || mType == 0xC || (mType == 0xF && channel != 0xF)
    ensures TrackEventStep(data, pos, n) == Step(None, ExpectTrackEvent, n, q + 1, [])
  {
    TrackEventAfterDelta(data, pos, n, t, q, mType, channel);
  }

  /** A meta event with a command the lexer does not know: FF and the command
      byte are read, and nothing else. */
  lemma IgnoredMetaCommand(data: seq<byte>, pos: nat, n: int, t: uint32, q: nat)
    requires pos <= |data| && VarLengthAt(data, pos) == Parsed(Ok(t), q) && q + 2 <= |data|
    requires data[q] == 0xFF && data[q + 1] != 0x00 && !(0x01 <= data[q + 1] <= 0x07) && data[q + 1] != 0x2F
    ensures TrackEventStep(data, pos, n) == Step(None, ExpectTrackEvent, n, q + 2, [])
  {
    MetaStep(data, pos, n, t, q);
  }
}
