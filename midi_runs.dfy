/** Runs of several steps over bytes found anywhere in the input: a track of
    encoded events reads back as those events, and a file made of a header
    chunk and one track chunk reads back as the callbacks for all of it. */
module MidiRuns {
  import opened GoTypes
  import opened MidiErrors
  import opened MidiStructs
  import opened MidiInterfaces
  import opened Decoding
  import opened DecodingLemmas
  import opened Midi
  import opened MidiLemmas

  /** Events with an encoding that the lexer reads without leaving the track. */
  predicate InTrack(es: seq<Event>) {
    es == [] || (Encodable(es[0]) && !es[0].EndOfTrack? && InTrack(es[1..]))
  }

  /** The encoding of an event, empty for one without an encoding (kept
      total so that the lemmas below need not re-establish Encodable). */
  function Bytes(e: Event): (s: seq<byte>)
    ensures Encodable(e) ==> s == EventBytes(e)
  {
    if Encodable(e) then EventBytes(e) else []
  }

  /** The encodings of a sequence of track events, one after the other. */
  function TrackBytes(es: seq<Event>): (s: seq<byte>)
    ensures InTrack(es) ==> |s| >= 3 * |es|
  {
    if es == [] then [] else Bytes(es[0]) + TrackBytes(es[1..])
  }

  /** The encoding of the end of track meta event, FF 2F 00, after the
      delta-time `time`. */
  function EndBytes(time: uint32): (s: seq<byte>)
    ensures s == EventBytes(EndOfTrack(0xF, time))
  {
    VarLengthBytes(time) + [0xFF, 0x2F, 0x00]
  }

  /** `bytes` sits in `data` at `pos`, compared byte by byte. */
  predicate At(data: seq<byte>, pos: nat, bytes: seq<byte>)
    decreases |bytes|
  {
    if bytes == [] then pos <= |data|
    else pos < |data| && data[pos] == bytes[0] && At(data, pos + 1, bytes[1..])
  }

  lemma {:induction false} AtSlice(data: seq<byte>, pos: nat, bytes: seq<byte>)
    ensures At(data, pos, bytes) <==> pos + |bytes| <= |data| && data[pos..pos + |bytes|] == bytes
    decreases |bytes|
  {
    if bytes != [] {
      AtSlice(data, pos + 1, bytes[1..]);
      if pos + |bytes| <= |data| {
        assert data[pos..pos + |bytes|] == [data[pos]] + data[pos + 1..pos + |bytes|];
        assert bytes == [bytes[0]] + bytes[1..];
      }
    }
  }

  lemma Surround(data: seq<byte>, pos: nat, x: seq<byte>)
    requires At(data, pos, x)
    ensures pos + |x| <= |data| && data == data[..pos] + x + data[pos + |x|..]
  {
    AtSlice(data, pos, x);
  }

  /** One event wherever its encoding sits. */
  lemma EventAt(data: seq<byte>, pos: nat, e: Event, n: int)
    requires Encodable(e) && At(data, pos, EventBytes(e))
    ensures NextStep(data, pos, ExpectTrackEvent, n) ==
            Step(None, if e.EndOfTrack? then ExpectChunk else ExpectTrackEvent, n, pos + ConsumedLength(e), [e])
  {
    Surround(data, pos, EventBytes(e));
    TrackEventRoundTrip(e, data[..pos], data[pos + |EventBytes(e)|..], n);
  }

  /** The first event of a track: a step reads it and stays in the track. */
  lemma HeadAt(es: seq<Event>, data: seq<byte>, pos: nat, n: int)
    requires es != [] && InTrack(es) && At(data, pos, Bytes(es[0]))
    ensures NextStep(data, pos, ExpectTrackEvent, n) == Step(None, ExpectTrackEvent, n, pos + |Bytes(es[0])|, [es[0]])
  {
    var e := es[0];
    assert Encodable(e) && !e.EndOfTrack?;
    EventAt(data, pos, e, n);
  }

  /** The end of track as the lexer reports it. */
  function End(time: uint32): Event {
    EndOfTrack(0xF, time)
  }

  /** A step that reports one event and stays in the track, then k more that
      end the track. */
  lemma StepsAfterStep(data: seq<byte>, pos: nat, next: nat, e: Event, n: int, k: nat, last: nat, tail: seq<Event>)
    requires pos <= next <= |data|
    requires NextStep(data, pos, ExpectTrackEvent, n) == Step(None, ExpectTrackEvent, n, next, [e])
    requires Steps(data, next, ExpectTrackEvent, n, k) == Step(None, ExpectChunk, n, last, tail)
    ensures Steps(data, pos, ExpectTrackEvent, n, k + 1) == Step(None, ExpectChunk, n, last, [e] + tail)
  {
  }

  /** The encodings of `es` sit one after the other from `pos`, followed by
      that of an end of track at `time`. */
  predicate TrackAt(data: seq<byte>, pos: nat, es: seq<Event>, time: uint32)
    decreases |es|
  {
    if es == [] then At(data, pos, EndBytes(time))
    else At(data, pos, Bytes(es[0])) && TrackAt(data, pos + |Bytes(es[0])|, es[1..], time)
  }

  /** An encoded end of track alone is read by one step that leaves the track,
      with the cursor on its length byte. */
  lemma EndAt(time: uint32, data: seq<byte>, pos: nat, n: int)
    requires At(data, pos, EndBytes(time))
    ensures pos + |VarLengthBytes(time)| + 2 <= |data|
    ensures Steps(data, pos, ExpectTrackEvent, n, 1) ==
            Step(None, ExpectChunk, n, pos + |VarLengthBytes(time)| + 2, [] + [End(time)])
  {
    AtSlice(data, pos, EndBytes(time));
    EventAt(data, pos, End(time), n);
    assert [End(time)] + [] == [] + [End(time)];
  }

  /** A step that reads the first event of a track, in front of the steps that
      read the rest of it, makes one run that reads the whole track. */
  lemma StepsAfterHead(data: seq<byte>, pos: nat, next: nat, es: seq<Event>, time: uint32, n: int)
    requires es != [] && next == pos + |Bytes(es[0])| && next <= |data|
    requires NextStep(data, pos, ExpectTrackEvent, n) == Step(None, ExpectTrackEvent, n, next, [es[0]])
    requires Steps(data, next, ExpectTrackEvent, n, |es[1..]| + 1) ==
             Step(None, ExpectChunk, n, next + |TrackBytes(es[1..])| + |VarLengthBytes(time)| + 2, es[1..] + [End(time)])
    ensures Steps(data, pos, ExpectTrackEvent, n, |es| + 1) ==
            Step(None, ExpectChunk, n, pos + |TrackBytes(es)| + |VarLengthBytes(time)| + 2, es + [End(time)])
  {
    TrackBytesCons(es);
    StepsAfterStep(data, pos, next, es[0], n, |es[1..]| + 1,
                   next + |TrackBytes(es[1..])| + |VarLengthBytes(time)| + 2, es[1..] + [End(time)]);
    ConsSnoc(es, End(time));
  }

  lemma TrackBytesCons(es: seq<Event>)
    requires es != []
    ensures |TrackBytes(es)| == |Bytes(es[0])| + |TrackBytes(es[1..])|
  {
  }

  lemma ConsSnoc(es: seq<Event>, x: Event)
    requires es != []
    ensures [es[0]] + (es[1..] + [x]) == es + [x]
  {
  }

  /** A track's events followed by an end of track, encoded one after the
      other, are read back by as many steps, which report exactly those events,
      in order, with no error, keep nextChunkHeader, and leave the track with the
      cursor on the end of track's length byte. */
  lemma {:induction false} TrackRoundTrip(es: seq<Event>, time: uint32, data: seq<byte>, pos: nat, n: int)
    requires InTrack(es) && TrackAt(data, pos, es, time)
    ensures pos + |TrackBytes(es)| + |VarLengthBytes(time)| + 2 <= |data|
    ensures Steps(data, pos, ExpectTrackEvent, n, |es| + 1) ==
            Step(None, ExpectChunk, n, pos + |TrackBytes(es)| + |VarLengthBytes(time)| + 2, es + [End(time)])
    decreases |es|
  {
    if es == [] {
      EndAt(time, data, pos, n);
    } else {
      var next := pos + |Bytes(es[0])|;
      TrackRoundTrip(es[1..], time, data, next, n);
      TrackBytesCons(es);
      HeadAt(es, data, pos, n);
      StepsAfterHead(data, pos, next, es, time, n);
    }
  }

  /** A header chunk of valid header data. */
  function HeaderChunkBytes(h: HeaderData, length: uint32): (s: seq<byte>)
    requires ValidHeaderData(h)
    ensures |s| == 14
  {
    ChunkHeaderBytes(ChunkHeader(MThd, length)) + HeaderDataBytes(h)
  }

  lemma HeaderAt(data: seq<byte>, h: HeaderData, length: uint32)
    requires ValidHeaderData(h) && At(data, 0, HeaderChunkBytes(h, length))
    ensures NextStep(data, 0, ExpectHeader, 0) == Step(None, ExpectChunk, 0, 14, [Began, Header(h)])
  {
    Surround(data, 0, HeaderChunkBytes(h, length));
    assert data == [] + ChunkHeaderBytes(ChunkHeader(MThd, length)) + HeaderDataBytes(h) + data[14..];
    HeaderRoundTrip(h, length, [], data[14..], 0);
  }

  lemma TrackChunkAt(data: seq<byte>, pos: nat, length: uint32, n: int)
    requires At(data, pos, ChunkHeaderBytes(ChunkHeader(MTrk, length)))
    ensures NextStep(data, pos, ExpectChunk, n) ==
            Step(None, ExpectTrackEvent, length + pos, pos + 8, [Track(ChunkHeader(MTrk, length))])
  {
    Surround(data, pos, ChunkHeaderBytes(ChunkHeader(MTrk, length)));
    TrackChunkRoundTrip(length, data[..pos], data[pos + 8..], n);
  }

  /** A successful step, then k more. */
  lemma StepsAfter(data: seq<byte>, pos: nat, state: LexerState, n: int, s: Step, k: nat)
    requires pos <= |data| && NextStep(data, pos, state, n) == s && s.err.None?
    ensures var r := Steps(data, s.pos, s.state, s.nextChunkHeader, k);
      Steps(data, pos, state, n, k + 1) == Step(r.err, r.state, r.nextChunkHeader, r.pos, s.emitted + r.emitted)
  {
  }

  /** The steps over a file of one track, put together from the header's
      step, the track chunk header's step and the track's steps. */
  lemma FileSteps(data: seq<byte>, h: HeaderData, trackLength: uint32, k: nat, last: nat, tail: seq<Event>)
    requires 22 <= |data|
    requires NextStep(data, 0, ExpectHeader, 0) == Step(None, ExpectChunk, 0, 14, [Began, Header(h)])
    requires NextStep(data, 14, ExpectChunk, 0) ==
             Step(None, ExpectTrackEvent, trackLength + 14, 22, [Track(ChunkHeader(MTrk, trackLength))])
    requires Steps(data, 22, ExpectTrackEvent, trackLength + 14, k) ==
             Step(None, ExpectChunk, trackLength + 14, last, tail)
    ensures Steps(data, 0, ExpectHeader, 0, k + 2) ==
            Step(None, ExpectChunk, trackLength + 14, last, [Began, Header(h), Track(ChunkHeader(MTrk, trackLength))] + tail)
  {
    StepsAfter(data, 14, ExpectChunk, 0, NextStep(data, 14, ExpectChunk, 0), k);
    StepsAfter(data, 0, ExpectHeader, 0, NextStep(data, 0, ExpectHeader, 0), k + 1);
    assert [Began, Header(h)] + ([Track(ChunkHeader(MTrk, trackLength))] + tail) ==
           [Began, Header(h), Track(ChunkHeader(MTrk, trackLength))] + tail;
  }

  /** A whole file of one track: a header chunk, a track chunk header and the
      track's events up to its end of track, one after the other. Three steps
      more than the track has events read it back: Began and Header, then
      Track, then each event in order, with no error. The lexer then expects a
      chunk at the end of track's length byte, and keeps the track chunk's
      length plus its start position, 14. The chunk lengths are not checked
      against the data. */
  lemma FileRoundTrip(data: seq<byte>, h: HeaderData, headerLength: uint32, trackLength: uint32, es: seq<Event>, time: uint32)
    requires ValidHeaderData(h) && InTrack(es)
    requires At(data, 0, HeaderChunkBytes(h, headerLength))
    requires At(data, 14, ChunkHeaderBytes(ChunkHeader(MTrk, trackLength)))
    requires TrackAt(data, 22, es, time)
    ensures Steps(data, 0, ExpectHeader, 0, |es| + 3) ==
            Step(None, ExpectChunk, trackLength + 14, 22 + |TrackBytes(es)| + |VarLengthBytes(time)| + 2,
                 [Began, Header(h), Track(ChunkHeader(MTrk, trackLength))] + (es + [End(time)]))
  {
    HeaderAt(data, h, headerLength);
    TrackChunkAt(data, 14, trackLength, 0);
    TrackRoundTrip(es, time, data, 22, trackLength + 14);
    var k := |es| + 1;
    assert k + 2 == |es| + 3;
    FileSteps(data, h, trackLength, k, 22 + |TrackBytes(es)| + |VarLengthBytes(time)| + 2, es + [End(time)]);
  }
}
