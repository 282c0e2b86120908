/** Properties of the decoders: round trips against the encoders, the error cases,
    and the values the repository's tests expect. */
module DecodingLemmas {
  import opened GoTypes
  import opened MidiErrors
  import opened MidiStructs
  import opened MidiValues
  import opened Decoding

  /** The bytes of `x` sit at offset |pre| of `pre + x + rest`. */
  lemma SliceOfConcat(pre: seq<byte>, x: seq<byte>, rest: seq<byte>)
    ensures (pre + x + rest)[|pre|..|pre| + |x|] == x
    ensures forall i :: 0 <= i < |x| ==> (pre + x + rest)[|pre| + i] == x[i]
  {
  }

  // ---------------------------------------------------------------------------
  // Fixed-width integers.

  lemma Uint32RoundTrip(v: uint32, pre: seq<byte>, rest: seq<byte>)
    ensures Uint32At(pre + Uint32Bytes(v) + rest, |pre|) == Parsed(Ok(v), |pre| + 4)
  {
    SliceOfConcat(pre, Uint32Bytes(v), rest);
  }

  lemma Uint16RoundTrip(v: uint16, pre: seq<byte>, rest: seq<byte>)
    ensures Uint16At(pre + Uint16Bytes(v) + rest, |pre|) == Parsed(Ok(v), |pre| + 2)
  {
    SliceOfConcat(pre, Uint16Bytes(v), rest);
  }

  lemma FixedWidthExamples()
    ensures Uint32At([0x00, 0x41, 0x89, 0x37], 0) == Parsed(Ok(4294967), 4)
    ensures Uint32At([0xFF, 0xFF, 0xFF, 0xFF], 0) == Parsed(Ok(4294967295), 4)
    ensures Uint32At([0x00, 0x41, 0x89], 0) == Parsed(Err(UnexpectedEndOfFile), 3)
    ensures Uint16At([0xA7, 0xC5], 0) == Parsed(Ok(42949), 2)
    ensures Uint16At([0xA7], 0) == Parsed(Err(UnexpectedEndOfFile), 1)
    ensures Uint8At([0xFF], 0) == Parsed(Ok(0xFF), 1)
    ensures Uint7At([0xFF], 0) == Parsed(Ok(0x7F), 1)
    ensures TwoUint7At([0x85, 0x04], 0) == Parsed(Ok((0x05, 0x04)), 2)
    ensures Uint8At([], 0) == Parsed(Err(UnexpectedEndOfFile), 0)
  {
  }

  // ---------------------------------------------------------------------------
  // Status bytes and the pitch wheel.

  /** Splitting a status byte and recombining the nibbles gives the byte back. */
  lemma StatusByteRoundTrip(t: uint8, c: uint8, pre: seq<byte>)
    requires t < 0x10 && c < 0x10
    ensures StatusByteAt(pre + [t * 0x10 + c], |pre|) == Parsed(Ok((t, c)), |pre| + 1)
  {
    var b := t * 0x10 + c;
    DivMod(t, c, 0x10);
    assert (pre + [b])[|pre|] == b;
  }

  lemma StatusByteExamples()
    ensures StatusByteAt([0x15], 0) == Parsed(Ok((1, 5)), 1)
    ensures StatusByteAt([0x42], 0) == Parsed(Ok((4, 2)), 1)
    ensures StatusByteAt([], 0) == Parsed(Err(UnexpectedEndOfFile), 0)
  {
  }

  /** Any 14-bit value, written low seven bits first, decodes to itself and to its
      offset from the centre 0x2000. */
  lemma PitchWheelRoundTrip(abs: uint16, pre: seq<byte>)
    requires abs <= 0x3FFF
    ensures PitchWheelAt(pre + [abs % 0x80, abs / 0x80], |pre|) == Parsed(Ok((abs - 0x2000, abs)), |pre| + 2)
  {
    var data := pre + [abs % 0x80, abs / 0x80];
    assert data[|pre|] == abs % 0x80 && data[|pre| + 1] == abs / 0x80;
    var v := PitchWheelAbsolute(abs % 0x80, abs / 0x80);
    assert v == (v / 0x80) * 0x80 + v % 0x80;
  }

  /** The values the lexer tests expect, centred and off-centre. */
  lemma PitchWheelExamples()
    ensures PitchWheelAt([0x00, 0x40], 0) == Parsed(Ok((0, 0x2000)), 2)
    ensures PitchWheelAt([0x34, 0x24], 0) == Parsed(Ok((-0xDCC, 0x1234)), 2)
  {
  }

  // ---------------------------------------------------------------------------
  // Variable-length quantities.

  /** Bytes with bit 7 set are folded in one at a time without ending the quantity. */
  lemma {:induction false} VarLengthSkipsContinuations(data: seq<byte>, pos: nat, acc: uint32, s: seq<byte>)
    requires pos + |s| <= |data| && data[pos..pos + |s|] == s
    requires forall i :: 0 <= i < |s| ==> s[i] >= 0x80
    ensures VarLengthFrom(data, pos, acc) == VarLengthFrom(data, pos + |s|, VlqFold(acc, s))
    decreases |s|
  {
    if s != [] {
      assert data[pos] == s[0];
      assert data[pos + 1..pos + |s|] == s[1..];
      VarLengthSkipsContinuations(data, pos + 1, VlqStep(acc, s[0]), s[1..]);
    }
  }

  /** The continuation groups of `w` accumulate to `w` itself. */
  lemma {:induction false} FoldContinuations(w: nat)
    requires w < 0x1_0000_0000
    ensures VlqFold(0, Continuations(w)) == w
    decreases w
  {
    if w != 0 {
      FoldContinuations(w / 0x80);
      VlqFoldSnoc(0, Continuations(w / 0x80), 0x80 + w % 0x80);
      VlqStepParts(w / 0x80, 0x80 + w % 0x80);
    }
  }

  /** Every uint32 survives encoding and decoding, wherever it sits in the stream,
      and the decoder stops right after its last byte. */
  lemma VarLengthRoundTrip(v: uint32, pre: seq<byte>, rest: seq<byte>)
    ensures VarLengthAt(pre + VarLengthBytes(v) + rest, |pre|) == Parsed(Ok(v), |pre| + |VarLengthBytes(v)|)
  {
    var enc := VarLengthBytes(v);
    var cont := Continuations(v / 0x80);
    var data := pre + enc + rest;
    SliceOfConcat(pre, enc, rest);
    assert data[|pre|..|pre| + |cont|] == cont;
    VarLengthSkipsContinuations(data, |pre|, 0, cont);
    FoldContinuations(v / 0x80);
    assert data[|pre| + |cont|] == v % 0x80;
    VlqStepParts(v / 0x80, v % 0x80);
  }

  /** At most k groups: a number below 128^k needs at most k continuation bytes. */
  lemma {:induction false} ContinuationsLength(w: nat, k: nat, bound: nat)
    requires bound == Pow128(k) && w < bound
    ensures |Continuations(w)| <= k
    decreases k
  {
    if w != 0 {
      assert k > 0;
      ContinuationsLength(w / 0x80, k - 1, Pow128(k - 1));
    }
  }

  function Pow128(k: nat): (p: nat)
    ensures p >= 1
  {
    if k == 0 then 1 else 0x80 * Pow128(k - 1)
  }

  /** Values below 2^28, the range a Standard MIDI File allows, take at most four
      bytes; every uint32 takes at most five. */
  lemma VarLengthEncodingLength(v: uint32)
    ensures v < 0x1000_0000 ==> |VarLengthBytes(v)| <= 4
    ensures |VarLengthBytes(v)| <= 5
  {
    assert Pow128(3) == 0x20_0000;
    assert Pow128(4) == 0x1000_0000;
    if v < 0x1000_0000 {
      ContinuationsLength(v / 0x80, 3, Pow128(3));
    } else {
      ContinuationsLength(v / 0x80, 4, Pow128(4));
    }
  }

  /** The quantity fails exactly when no byte from `pos` on has bit 7 clear. */
  lemma VarLengthEofIff(data: seq<byte>, pos: nat)
    requires pos <= |data|
    ensures VarLengthAt(data, pos).result.Err? <==> forall i :: pos <= i < |data| ==> data[i] >= 0x80
  {
    VarLengthShape(data, pos, 0);
    var p := VarLengthAt(data, pos);
    if p.result.Ok? {
      assert data[p.pos - 1] < 0x80;
    }
  }

  /** A whole buffer holding one encoding decodes to its value. */
  lemma VarLengthOfEncoding(v: uint32, enc: seq<byte>)
    requires enc == VarLengthBytes(v)
    ensures VarLengthAt(enc, 0) == Parsed(Ok(v), |enc|)
  {
    VarLengthRoundTrip(v, [], []);
    assert [] + enc + [] == enc;
  }

  /** The encodings the repository's tests use, with their values. */
  const VarLengthTestTable: seq<(uint32, seq<byte>)> := [
    (0x00, [0x00]), (0x40, [0x40]), (0x7F, [0x7F]),
    (0x80, [0x81, 0x00]), (0x2000, [0xC0, 0x00]), (0x3FFF, [0xFF, 0x7F]),
    (0x4000, [0x81, 0x80, 0x00]), (0x10_0000, [0xC0, 0x80, 0x00]), (0x1F_FFFF, [0xFF, 0xFF, 0x7F]),
    (0x20_0000, [0x81, 0x80, 0x80, 0x00]), (0x800_0000, [0xC0, 0x80, 0x80, 0x00]),
    (0xFFF_FFFF, [0xFF, 0xFF, 0xFF, 0x7F])]

  /** Each test encoding is the shortest encoding of its value, so it decodes to it. */
  lemma VarLengthTestVectors(i: nat)
    requires i < |VarLengthTestTable|
    ensures var (v, enc) := VarLengthTestTable[i];
      VarLengthAt(enc, 0) == Parsed(Ok(v), |enc|)
  {
    var (v, enc) := VarLengthTestTable[i];
    TestEncodingIsShortest(i);
    VarLengthOfEncoding(v, enc);
  }

  /** Each encoding in the table is the shortest one, the one VarLengthBytes produces. */
  lemma TestEncodingIsShortest(i: nat)
    requires i < |VarLengthTestTable|
    ensures VarLengthTestTable[i].1 == VarLengthBytes(VarLengthTestTable[i].0)
  {
    if i < 4 {
      ShortTestEncodings(i);
    } else if i < 8 {
      MiddleTestEncodings(i);
    } else {
      LongTestEncodings(i);
    }
  }

  /** The one- and first two-byte rows of the table. */
  lemma ShortTestEncodings(i: nat)
    requires 0 <= i < 4
    ensures VarLengthTestTable[i].1 == VarLengthBytes(VarLengthTestTable[i].0)
  {
    if i == 0 {
      assert VarLengthTestTable[0] == (0x0, [0x00]);
      assert VarLengthBytes(0x0) == [0x00];
    } else if i == 1 {
      assert VarLengthTestTable[1] == (0x40, [0x40]);
      assert VarLengthBytes(0x40) == [0x40];
    } else if i == 2 {
      assert VarLengthTestTable[2] == (0x7F, [0x7F]);
      assert VarLengthBytes(0x7F) == [0x7F];
    } else {
      assert VarLengthTestTable[3] == (0x80, [0x81, 0x00]);
      assert Continuations(0x1) == [0x81];
      assert VarLengthBytes(0x80) == [0x81, 0x00];
    }
  }

  /** The middle rows of the table. */
  lemma MiddleTestEncodings(i: nat)
    requires 4 <= i < 8
    ensures VarLengthTestTable[i].1 == VarLengthBytes(VarLengthTestTable[i].0)
  {
    if i == 4 {
      assert VarLengthTestTable[4] == (0x2000, [0xC0, 0x00]);
      assert Continuations(0x40) == [0xC0];
      assert VarLengthBytes(0x2000) == [0xC0, 0x00];
    } else if i == 5 {
      assert VarLengthTestTable[5] == (0x3FFF, [0xFF, 0x7F]);
      assert Continuations(0x7F) == [0xFF];
      assert VarLengthBytes(0x3FFF) == [0xFF, 0x7F];
    } else if i == 6 {
      assert VarLengthTestTable[6] == (0x4000, [0x81, 0x80, 0x00]);
      assert Continuations(0x80) == [0x81, 0x80];
      assert VarLengthBytes(0x4000) == [0x81, 0x80, 0x00];
    } else {
      assert VarLengthTestTable[7] == (0x100000, [0xC0, 0x80, 0x00]);
      assert Continuations(0x2000) == [0xC0, 0x80];
      assert VarLengthBytes(0x100000) == [0xC0, 0x80, 0x00];
    }
  }

  /** The three- and four-byte rows at the end of the table. */
  lemma LongTestEncodings(i: nat)
    requires 8 <= i < 12
    ensures VarLengthTestTable[i].1 == VarLengthBytes(VarLengthTestTable[i].0)
  {
    if i == 8 {
      assert VarLengthTestTable[8] == (0x1FFFFF, [0xFF, 0xFF, 0x7F]);
      assert Continuations(0x3FFF) == [0xFF, 0xFF];
      assert VarLengthBytes(0x1FFFFF) == [0xFF, 0xFF, 0x7F];
    } else if i == 9 {
      assert VarLengthTestTable[9] == (0x200000, [0x81, 0x80, 0x80, 0x00]);
      assert Continuations(0x4000) == [0x81, 0x80, 0x80];
      assert VarLengthBytes(0x200000) == [0x81, 0x80, 0x80, 0x00];
    } else if i == 10 {
      assert VarLengthTestTable[10] == (0x8000000, [0xC0, 0x80, 0x80, 0x00]);
      assert Continuations(0x100000) == [0xC0, 0x80, 0x80];
      assert VarLengthBytes(0x8000000) == [0xC0, 0x80, 0x80, 0x00];
    } else {
      assert VarLengthTestTable[11] == (0xFFFFFFF, [0xFF, 0xFF, 0xFF, 0x7F]);
      assert Continuations(0x1FFFFF) == [0xFF, 0xFF, 0xFF];
      assert VarLengthBytes(0xFFFFFFF) == [0xFF, 0xFF, 0xFF, 0x7F];
    }
  }

  /** Running out of bytes, in the middle of a quantity or before it starts. */
  lemma VarLengthEofExamples()
    ensures VarLengthAt([], 0) == Parsed(Err(UnexpectedEndOfFile), 0)
    ensures VarLengthAt([0x81], 0) == Parsed(Err(UnexpectedEndOfFile), 1)
    ensures VarLengthAt([0x81, 0xFF], 0) == Parsed(Err(UnexpectedEndOfFile), 2)
  {
  }

  /** Five groups overflow the uint32 accumulator, and the top bits are lost: 0x10
      shifted left by 28 is 2^32, which wraps to 0. */
  lemma VarLengthWrapsAround(data: seq<byte>)
    requires |data| == 5 && data[..4] == [0x90, 0x80, 0x80, 0x80] && data[4] == 0x00
    ensures VarLengthAt(data, 0) == Parsed(Ok(0), 5)
  {
    FourContinuationBytes(data);
    VarLengthUnfold(data, 4, 0x200_0000, 1, 0x00);
    VlqStepParts(0x200_0000, 0x00);
  }

  lemma FourContinuationBytes(data: seq<byte>)
    requires |data| == 5 && data[..4] == [0x90, 0x80, 0x80, 0x80]
    ensures VarLengthFrom(data, 0, 0) == VarLengthFrom(data, 4, 0x200_0000)
  {
    var s: seq<byte> := [0x90, 0x80, 0x80, 0x80];
    VarLengthSkipsContinuations(data, 0, 0, s);
    FourGroupsReach2To25();
  }

  lemma FourGroupsReach2To25()
    ensures VlqFold(0, [0x90, 0x80, 0x80, 0x80]) == 0x200_0000
  {
    assert VlqStep(0, 0x90) == 0x10;
    assert VlqStep(0x10, 0x80) == 0x800;
    assert VlqStep(0x800, 0x80) == 0x4_0000;
    assert VlqStep(0x4_0000, 0x80) == 0x200_0000;
    VlqFoldSnoc(0, [0x90], 0x80);
    assert [0x90] + [0x80] == [0x90, 0x80];
    VlqFoldSnoc(0, [0x90, 0x80], 0x80);
    assert [0x90, 0x80] + [0x80] == [0x90, 0x80, 0x80];
    VlqFoldSnoc(0, [0x90, 0x80, 0x80], 0x80);
    assert [0x90, 0x80, 0x80] + [0x80] == [0x90, 0x80, 0x80, 0x80];
  }

  // ---------------------------------------------------------------------------
  // Chunk headers.

  function ChunkHeaderBytes(h: ChunkHeader): (s: seq<byte>)
    requires |h.chunkType| == 4
    ensures |s| == 8
  {
    h.chunkType + Uint32Bytes(h.length)
  }

  lemma ChunkHeaderRoundTrip(h: ChunkHeader, pre: seq<byte>, rest: seq<byte>)
    requires |h.chunkType| == 4
    ensures ChunkHeaderAt(pre + ChunkHeaderBytes(h) + rest, |pre|) == ChunkParsed(h, None, |pre| + 8)
  {
    var data := pre + ChunkHeaderBytes(h) + rest;
    SliceOfConcat(pre, ChunkHeaderBytes(h), rest);
    assert data[|pre|..|pre| + 4] == h.chunkType;
    Uint32RoundTrip(h.length, pre + h.chunkType, rest);
    assert data == (pre + h.chunkType) + Uint32Bytes(h.length) + rest;
  }

  lemma ChunkHeaderExamples()
    ensures ChunkHeaderAt([0x4D, 0x54, 0x68, 0x64, 0x00, 0x00, 0x00, 0x06], 0) ==
            ChunkParsed(ChunkHeader(MThd, 6), None, 8)
    ensures ChunkHeaderAt([0x4D, 0x54, 0x68, 0x64, 0x00, 0x41, 0x89, 0x37], 0) ==
            ChunkParsed(ChunkHeader(MThd, 4294967), None, 8)
    ensures ChunkHeaderAt([0x4D, 0x54, 0x72, 0x6B, 0x00, 0x00, 0x00, 0xEE], 0) ==
            ChunkParsed(ChunkHeader(MTrk, 0xEE), None, 8)
    ensures ChunkHeaderAt([0x4D, 0x54, 0x68], 0) ==
            ChunkParsed(EmptyChunkHeader, Some(UnexpectedEndOfFile), 3)
    ensures ChunkHeaderAt([0x4D, 0x54, 0x68, 0x64, 0x00, 0x00], 0) ==
            ChunkParsed(ChunkHeader(MThd, 0), Some(UnexpectedEndOfFile), 6)
  {
  }

  // ---------------------------------------------------------------------------
  // The MThd body.

  /** A header the decoder can produce: a supported format and exactly one of the
      two division fields in use. */
  predicate ValidHeaderData(h: HeaderData) {
    h.format <= 2 &&
    ((h.timeFormat == MetricalTimeFormat && h.timeFormatData == 0 && h.ticksPerQuarterNote < 0x8000) ||
     (h.timeFormat == TimeCodeTimeFormat && h.ticksPerQuarterNote == 0 && h.timeFormatData < 0x8000))
  }

  /** The division word that encodes a header's time format. */
  function DivisionOf(h: HeaderData): (d: uint16)
    requires ValidHeaderData(h)
    ensures WithDivision(HeaderData(h.format, h.numTracks, 0, 0, 0), d) == h
  {
    if h.timeFormat == MetricalTimeFormat then h.ticksPerQuarterNote else 0x8000 + h.timeFormatData
  }

  function HeaderDataBytes(h: HeaderData): (s: seq<byte>)
    requires ValidHeaderData(h)
    ensures |s| == 6
  {
    Uint16Bytes(h.format) + Uint16Bytes(h.numTracks) + Uint16Bytes(DivisionOf(h))
  }

  lemma HeaderDataRoundTrip(h: HeaderData, pre: seq<byte>, rest: seq<byte>)
    requires ValidHeaderData(h)
    ensures HeaderDataAt(pre + HeaderDataBytes(h) + rest, |pre|) == Parsed(Ok(h), |pre| + 6)
  {
    var f, n, d := Uint16Bytes(h.format), Uint16Bytes(h.numTracks), Uint16Bytes(DivisionOf(h));
    var data := pre + HeaderDataBytes(h) + rest;
    assert data == pre + f + (n + d + rest);
    assert data == (pre + f) + n + (d + rest);
    assert data == (pre + f + n) + d + rest;
    Uint16RoundTrip(h.format, pre, n + d + rest);
    Uint16RoundTrip(h.numTracks, pre + f, d + rest);
    Uint16RoundTrip(DivisionOf(h), pre + f + n, rest);
  }

  /** Whatever the decoder accepts is a valid header and is exactly the six bytes
      it consumed. */
  lemma HeaderDataOkIsCanonical(data: seq<byte>, pos: nat)
    requires pos <= |data| && HeaderDataAt(data, pos).result.Ok?
    ensures var p := HeaderDataAt(data, pos);
      ValidHeaderData(p.result.value) && p.pos == pos + 6 && data[pos..pos + 6] == HeaderDataBytes(p.result.value)
  {
    var h := HeaderDataAt(data, pos).result.value;
    var f := Uint16At(data, pos);
    var n := Uint16At(data, pos + 2);
    var d := Uint16At(data, pos + 4);
    assert data[pos..pos + 6] == data[pos..pos + 2] + data[pos + 2..pos + 4] + data[pos + 4..pos + 6];
    assert DivisionOf(h) == d.result.value;
  }

  /** The three ways the header decoder can end. */
  lemma HeaderDataOutcomes(data: seq<byte>, pos: nat)
    requires pos <= |data|
    ensures var p := HeaderDataAt(data, pos);
      (p.result.Ok? <==> pos + 6 <= |data| && BigEndian16(data[pos], data[pos + 1]) <= 2) &&
      (p.result == Err(UnsupportedSmfFormat) <==> pos + 2 <= |data| && BigEndian16(data[pos], data[pos + 1]) > 2) &&
      (p.result == Err(UnsupportedSmfFormat) ==> p.pos == pos + 2) &&
      (p.result.Err? && p.result != Err(UnsupportedSmfFormat) ==>
         p.result.error == UnexpectedEndOfFile && p.pos == |data|)
  {
  }

  /** The header of the lexer tests: format 1, two tracks, 200 ticks. */
  lemma HeaderDataMetricalExample()
    ensures HeaderDataAt([0x00, 0x01, 0x00, 0x02, 0x00, 0xC8], 0) ==
            Parsed(Ok(HeaderData(1, 2, MetricalTimeFormat, 0, 200)), 6)
  {
  }

  /** Bit 15 of the division set: time-code format, bits 14-0 kept as they are. */
  lemma HeaderDataTimeCodeExample()
    ensures HeaderDataAt([0x00, 0x02, 0x00, 0x01, 0xFF, 0x05], 0) ==
            Parsed(Ok(HeaderData(2, 1, TimeCodeTimeFormat, 0x7F05, 0)), 6)
  {
  }

  lemma HeaderDataErrorExamples()
    ensures HeaderDataAt([0x00, 0x03, 0x00, 0x01, 0x00, 0xC8], 0) ==
            Parsed(Err(UnsupportedSmfFormat), 2)
    ensures HeaderDataAt([0x00, 0x01, 0x00, 0x02, 0x00], 0) ==
            Parsed(Err(UnexpectedEndOfFile), 5)
  {
  }

  // ---------------------------------------------------------------------------
  // Text fields.

  lemma TextRoundTrip(t: seq<byte>, pre: seq<byte>, rest: seq<byte>)
    requires |t| < 0x1_0000_0000
    ensures TextAt(pre + VarLengthBytes(|t|) + t + rest, |pre|) ==
            Parsed(Ok(t), |pre| + |VarLengthBytes(|t|)| + |t|)
  {
    var enc := VarLengthBytes(|t|);
    var data := pre + VarLengthBytes(|t|) + t + rest;
    assert data == pre + enc + (t + rest);
    VarLengthRoundTrip(|t|, pre, t + rest);
    SliceOfConcat(pre + enc, t, rest);
  }

  /** A declared length longer than what follows consumes the rest and fails. */
  lemma TextTooShort(data: seq<byte>, pos: nat)
    requires pos <= |data|
    requires var n := VarLengthAt(data, pos); n.result.Ok? && n.result.value > |data| - n.pos
    ensures TextAt(data, pos) == Parsed(Err(UnexpectedEndOfFile), |data|)
  {
  }

  /** The same sixteen bytes of text stand behind a declared length of 16, which
      reads them all, and of 17, which runs out. */
  lemma TextExamples(t: seq<byte>)
    requires |t| == 16
    ensures TextAt([0x10] + t, 0) == Parsed(Ok(t), 17)
    ensures TextAt([0x11] + t, 0) == Parsed(Err(UnexpectedEndOfFile), 17)
  {
    assert ([0x10] + t)[1..17] == t;
  }
}
