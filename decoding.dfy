/** What each decoder in midi_functions.go computes, as pure functions of the bytes
    and the cursor position. A decoder reads through the mock cursor, so a short
    read still consumes whatever was left: every function here returns the
    position after the call together with the result. */
module Decoding {
  import opened GoTypes
  import opened MidiErrors
  import opened MidiStructs
  import opened MidiValues
  import opened Mocks

  /** A decoder's result and the cursor position it leaves. */
  datatype Parsed<+T> = Parsed(result: Result<T>, pos: nat)

  /** parseChunkHeader returns its header even with an error, and the lexer looks
      at the tag of that header, so both are kept. */
  datatype ChunkParsed = ChunkParsed(header: ChunkHeader, err: Option<Error>, pos: nat)

  // ---------------------------------------------------------------------------
  // Value assembly: the shifts and masks of the decoders.

  /** `uint16(b0) << 8 | uint16(b1)`. */
  function BigEndian16(b0: byte, b1: byte): (v: uint16)
    ensures v / 0x100 == b0 && v % 0x100 == b1
  {
    b0 * 0x100 + b1
  }

  /** `b0 << 24 | b1 << 16 | b2 << 8 | b3`. */
  function BigEndian32(b0: byte, b1: byte, b2: byte, b3: byte): (v: uint32)
    ensures v / 0x100_0000 == b0
    ensures v / 0x1_0000 % 0x100 == b1
    ensures v / 0x100 % 0x100 == b2
    ensures v % 0x100 == b3
  {
    var v := b0 * 0x100_0000 + b1 * 0x1_0000 + b2 * 0x100 + b3;
    DivMod(b0, b1 * 0x1_0000 + b2 * 0x100 + b3, 0x100_0000);
    DivMod(b0 * 0x100 + b1, b2 * 0x100 + b3, 0x1_0000);
    DivMod(b0, b1, 0x100);
    DivMod(b0 * 0x1_0000 + b1 * 0x100 + b2, b3, 0x100);
    DivMod(b0 * 0x100 + b1, b2, 0x100);
    v
  }

  /** Division by `m` undoes `q * m + r` for a remainder in range. */
  lemma DivMod(q: int, r: int, m: int)
    requires m > 0 && 0 <= r < m
    ensures (q * m + r) / m == q && (q * m + r) % m == r
  {
    var a := q * m + r;
    var k := a / m - q;
    assert k * m == r - a % m;
    assert -m < k * m < m;
  }

  /** The two bytes of a uint16, most significant first. */
  function Uint16Bytes(v: uint16): (s: seq<byte>)
    ensures |s| == 2 && BigEndian16(s[0], s[1]) == v
  {
    [v / 0x100, v % 0x100]
  }

  /** The four bytes of a uint32, most significant first. */
  function Uint32Bytes(v: uint32): (s: seq<byte>)
    ensures |s| == 4 && BigEndian32(s[0], s[1], s[2], s[3]) == v
  {
    var b0, b1, b2, b3 := v / 0x100_0000, v / 0x1_0000 % 0x100, v / 0x100 % 0x100, v % 0x100;
    assert v / 0x1_0000 == b0 * 0x100 + b1;
    assert v / 0x100 == (v / 0x1_0000) * 0x100 + b2;
    assert v == (v / 0x100) * 0x100 + b3;
    [b0, b1, b2, b3]
  }

  /** `b & 0x7f`: the byte with bit 7 cleared. */
  function Low7(b: byte): (r: uint8)
    ensures r < 0x80
    ensures b < 0x80 ==> r == b
    ensures b >= 0x80 ==> r == b - 0x80
  {
    b % 0x80
  }

  /** `(b & 0xF0) >> 4`: the message type nibble of a status byte. */
  function StatusType(b: byte): (t: uint8)
    ensures t < 0x10
  {
    b / 0x10
  }

  /** `b & 0x0F`: the channel nibble of a status byte. */
  function StatusChannel(b: byte): (c: uint8)
    ensures c < 0x10
  {
    b % 0x10
  }

  /** `uint16(b1 & 0x7f) << 7 | uint16(b0) & 0x7f`: the 14-bit pitch-wheel value,
      least significant seven bits first. */
  function PitchWheelAbsolute(b0: byte, b1: byte): (v: uint16)
    ensures v <= 0x3FFF
    ensures v / 0x80 == Low7(b1) && v % 0x80 == Low7(b0)
  {
    Low7(b1) * 0x80 + Low7(b0)
  }

  /** `int16(val) - 0x2000`: the pitch-wheel value relative to the centre. The
      int16 subtraction cannot overflow for a 14-bit value. */
  function PitchWheelRelative(v: uint16): (r: int16)
    requires v <= 0x3FFF
    ensures -0x2000 <= r < 0x2000
    ensures r + 0x2000 == v
  {
    v - 0x2000
  }

  /** `result << 7` on a uint32, which wraps modulo 2^32: the top seven bits fall
      off and seven zero bits come in. */
  function ShiftLeft7(x: uint32): (r: uint32)
    ensures r == 0x80 * (x % 0x200_0000)
  {
    ShiftLeft7Drops(x);
    (x * 0x80) % 0x1_0000_0000
  }

  lemma ShiftLeft7Drops(x: uint32)
    ensures (x * 0x80) % 0x1_0000_0000 == 0x80 * (x % 0x200_0000)
  {
    var q, r := x / 0x200_0000, x % 0x200_0000;
    assert x == q * 0x200_0000 + r;
    assert x * 0x80 == q * 0x1_0000_0000 + r * 0x80;
    DivMod(q, r * 0x80, 0x1_0000_0000);
  }

  /** One iteration of the variable-length loop: `result = result << 7`, then
      `result |= b & 0x7f`. The low seven bits of the shifted value are zero, so
      the or is an addition: the byte's seven data bits become the low group, and
      the groups already read move up by one, losing what passes bit 31
      (VlqStepParts). */
  function VlqStep(acc: uint32, b: byte): uint32
  {
    ShiftLeft7(acc) + Low7(b)
  }

  /** The bit layout after one turn; while the value read so far is below 2^25
      nothing is lost. */
  lemma VlqStepParts(acc: uint32, b: byte)
    ensures VlqStep(acc, b) % 0x80 == Low7(b)
    ensures VlqStep(acc, b) / 0x80 == acc % 0x200_0000
    ensures acc < 0x200_0000 ==> VlqStep(acc, b) == acc * 0x80 + Low7(b)
  {
    DivMod(acc % 0x200_0000, Low7(b), 0x80);
  }

  /** The loop's accumulated value over a run of bytes: the last byte read
      always gives the low seven bits. */
  function VlqFold(acc: uint32, s: seq<byte>): (r: uint32)
    ensures s != [] ==> r % 0x80 == Low7(s[|s| - 1])
    decreases |s|
  {
    if s == [] then acc else VlqStepParts(acc, s[0]); VlqFold(VlqStep(acc, s[0]), s[1..])
  }

  lemma {:induction false} VlqFoldSnoc(acc: uint32, s: seq<byte>, b: byte)
    ensures VlqFold(acc, s + [b]) == VlqStep(VlqFold(acc, s), b)
    decreases |s|
  {
    if s == [] {
      assert [b][1..] == [];
    } else {
      assert (s + [b])[1..] == s[1..] + [b];
      VlqFoldSnoc(VlqStep(acc, s[0]), s[1..], b);
    }
  }

  // ---------------------------------------------------------------------------
  // Encoders, the inverses the decoders are checked against.

  /** The leading groups of a variable-length quantity, each with bit 7 set. */
  function Continuations(w: nat): (s: seq<byte>)
    ensures w == 0 <==> s == []
    ensures s != [] ==> s[0] > 0x80
    ensures forall i :: 0 <= i < |s| ==> s[i] >= 0x80
    decreases w
  {
    if w == 0 then [] else Continuations(w / 0x80) + [0x80 + w % 0x80]
  }

  /** The shortest variable-length encoding of `v`: seven bits per byte, most
      significant group first, bit 7 set on every byte but the last. */
  function VarLengthBytes(v: nat): (s: seq<byte>)
    ensures |s| >= 1 && s[|s| - 1] < 0x80
    ensures forall i :: 0 <= i < |s| - 1 ==> s[i] >= 0x80
    ensures |s| > 1 ==> s[0] > 0x80
  {
    Continuations(v / 0x80) + [v % 0x80]
  }

  // ---------------------------------------------------------------------------
  // The decoders.

  /** parseUint32: four bytes, big-endian; any fewer is UnexpectedEndOfFile. */
  function Uint32At(data: seq<byte>, pos: nat): (p: Parsed<uint32>)
    requires pos <= |data|
    ensures pos <= p.pos <= |data|
    ensures p.result.Ok? <==> pos + 4 <= |data|
    ensures p.result.Err? ==> p == Parsed(Err(UnexpectedEndOfFile), |data|)
    ensures p.result.Ok? ==> p.pos == pos + 4 && Uint32Bytes(p.result.value) == data[pos..pos + 4]
  {
    if |data| - pos < 4 then Parsed(Err(UnexpectedEndOfFile), |data|)
    else Parsed(Ok(BigEndian32(data[pos], data[pos + 1], data[pos + 2], data[pos + 3])), pos + 4)
  }

  /** parseUint16: two bytes, big-endian. */
  function Uint16At(data: seq<byte>, pos: nat): (p: Parsed<uint16>)
    requires pos <= |data|
    ensures pos <= p.pos <= |data|
    ensures p.result.Ok? <==> pos + 2 <= |data|
    ensures p.result.Err? ==> p == Parsed(Err(UnexpectedEndOfFile), |data|)
    ensures p.result.Ok? ==> p.pos == pos + 2 && Uint16Bytes(p.result.value) == data[pos..pos + 2]
  {
    if |data| - pos < 2 then Parsed(Err(UnexpectedEndOfFile), |data|)
    else Parsed(Ok(BigEndian16(data[pos], data[pos + 1])), pos + 2)
  }

  /** parseUint7: one byte with its top bit masked off. */
  function Uint7At(data: seq<byte>, pos: nat): (p: Parsed<uint8>)
    requires pos <= |data|
    ensures pos <= p.pos <= |data|
    ensures p.result.Ok? <==> pos < |data|
    ensures p.result.Err? ==> p == Parsed(Err(UnexpectedEndOfFile), |data|)
    ensures p.result.Ok? ==> p.pos == pos + 1 && p.result.value < 0x80 &&
                             p.result.value == data[pos] % 0x80
  {
    if |data| - pos < 1 then Parsed(Err(UnexpectedEndOfFile), |data|)
    else Parsed(Ok(Low7(data[pos])), pos + 1)
  }

  /** parseTwoUint7: two bytes, each with its top bit masked off. */
  function TwoUint7At(data: seq<byte>, pos: nat): (p: Parsed<(uint8, uint8)>)
    requires pos <= |data|
    ensures pos <= p.pos <= |data|
    ensures p.result.Ok? <==> pos + 2 <= |data|
    ensures p.result.Err? ==> p == Parsed(Err(UnexpectedEndOfFile), |data|)
    ensures p.result.Ok? ==> p.pos == pos + 2 && p.result.value.0 < 0x80 && p.result.value.1 < 0x80 &&
                             p.result.value.0 == data[pos] % 0x80 && p.result.value.1 == data[pos + 1] % 0x80
  {
    if |data| - pos < 2 then Parsed(Err(UnexpectedEndOfFile), |data|)
    else Parsed(Ok((Low7(data[pos]), Low7(data[pos + 1]))), pos + 2)
  }

  /** parseUint8: one raw byte. */
  function Uint8At(data: seq<byte>, pos: nat): (p: Parsed<uint8>)
    requires pos <= |data|
    ensures pos <= p.pos <= |data|
    ensures p.result.Ok? <==> pos < |data|
    ensures p.result.Err? ==> p == Parsed(Err(UnexpectedEndOfFile), |data|)
    ensures p.result.Ok? ==> p == Parsed(Ok(data[pos]), pos + 1)
  {
    if |data| - pos < 1 then Parsed(Err(UnexpectedEndOfFile), |data|)
    else Parsed(Ok(data[pos]), pos + 1)
  }

  /** parsePitchWheelValue: (relative, absolute) from two bytes, low seven bits first. */
  function PitchWheelAt(data: seq<byte>, pos: nat): (p: Parsed<(int16, uint16)>)
    requires pos <= |data|
    ensures pos <= p.pos <= |data|
    ensures p.result.Ok? <==> pos + 2 <= |data|
    ensures p.result.Err? ==> p == Parsed(Err(UnexpectedEndOfFile), |data|)
    ensures p.result.Ok? ==>
      var (rel, abs) := p.result.value;
      p.pos == pos + 2 && abs <= 0x3FFF && -0x2000 <= rel < 0x2000 && rel + 0x2000 == abs &&
      abs % 0x80 == data[pos] % 0x80 && abs / 0x80 == data[pos + 1] % 0x80
  {
    if |data| - pos < 2 then Parsed(Err(UnexpectedEndOfFile), |data|)
    else
      var abs := PitchWheelAbsolute(data[pos], data[pos + 1]);
      Parsed(Ok((PitchWheelRelative(abs), abs)), pos + 2)
  }

  /** readStatusByte: (type, channel) split from one byte. */
  function StatusByteAt(data: seq<byte>, pos: nat): (p: Parsed<(uint8, uint8)>)
    requires pos <= |data|
    ensures pos <= p.pos <= |data|
    ensures p.result.Ok? <==> pos < |data|
    ensures p.result.Err? ==> p == Parsed(Err(UnexpectedEndOfFile), |data|)
    ensures p.result.Ok? ==>
      var (t, c) := p.result.value;
      p.pos == pos + 1 && t < 0x10 && c < 0x10 && t * 0x10 + c == data[pos]
  {
    if |data| - pos < 1 then Parsed(Err(UnexpectedEndOfFile), |data|)
    else Parsed(Ok((StatusType(data[pos]), StatusChannel(data[pos]))), pos + 1)
  }

  /** parseVarLength from `pos` with `acc` accumulated so far: bytes are folded in
      up to and including the first with bit 7 clear; running out of bytes first
      is UnexpectedEndOfFile with every remaining byte consumed. VarLengthShape
      states which bytes are consumed and what they accumulate to. */
  function VarLengthFrom(data: seq<byte>, pos: nat, acc: uint32): (p: Parsed<uint32>)
    requires pos <= |data|
    ensures pos <= p.pos <= |data|
    ensures p.result.Ok? ==> pos < p.pos
    ensures p.result.Err? ==> p.result.error == UnexpectedEndOfFile && p.pos == |data|
    decreases |data| - pos
  {
    if pos == |data| then Parsed(Err(UnexpectedEndOfFile), pos)
    else
      var acc' := VlqStep(acc, data[pos]);
      if data[pos] < 0x80 then Parsed(Ok(acc'), pos + 1)
      else VarLengthFrom(data, pos + 1, acc')
  }

  /** One turn of the decoding loop: `num` is what a one-byte read from `pos`
      delivers, `b` the byte it delivered. */
  lemma VarLengthUnfold(data: seq<byte>, pos: nat, acc: uint32, num: nat, b: byte)
    requires pos <= |data| && num == ReadCount(1, |data| - pos)
    requires num == 1 ==> b == data[pos]
    ensures num == 0 ==> VarLengthFrom(data, pos, acc) == Parsed(Err(UnexpectedEndOfFile), pos)
    ensures num == 1 && b < 0x80 ==> VarLengthFrom(data, pos, acc) == Parsed(Ok(VlqStep(acc, b)), pos + 1)
    ensures num == 1 && b >= 0x80 ==> VarLengthFrom(data, pos, acc) == VarLengthFrom(data, pos + 1, VlqStep(acc, b))
  {
  }

  /** The bytes a variable-length read consumes: on success a run with bit 7 set
      ended by one with bit 7 clear, folded into the result; on failure every
      remaining byte, all with bit 7 set. */
  lemma {:induction false} VarLengthShape(data: seq<byte>, pos: nat, acc: uint32)
    requires pos <= |data|
    ensures var p := VarLengthFrom(data, pos, acc);
      (p.result.Err? ==> forall i :: pos <= i < |data| ==> data[i] >= 0x80) &&
      (p.result.Ok? ==>
         data[p.pos - 1] < 0x80 &&
         (forall i :: pos <= i < p.pos - 1 ==> data[i] >= 0x80) &&
         p.result.value == VlqFold(acc, data[pos..p.pos]))
    decreases |data| - pos
  {
    if pos < |data| {
      var acc' := VlqStep(acc, data[pos]);
      if data[pos] < 0x80 {
        assert data[pos..pos + 1][1..] == [];
      } else {
        VarLengthShape(data, pos + 1, acc');
        var p := VarLengthFrom(data, pos + 1, acc');
        if p.result.Ok? {
          assert data[pos..p.pos][1..] == data[pos + 1..p.pos];
        }
      }
    }
  }

  /** parseVarLength: a variable-length quantity starting from zero. Its only
      error is UnexpectedEndOfFile, with the input consumed; where it ends is
      what VarLengthShape and VarLengthEofIff say. */
  function VarLengthAt(data: seq<byte>, pos: nat): (p: Parsed<uint32>)
    requires pos <= |data|
    ensures pos <= p.pos <= |data|
    ensures p.result.Err? ==> p.result.error == UnexpectedEndOfFile && p.pos == |data|
  {
    VarLengthFrom(data, pos, 0)
  }

  /** parseChunkHeader: a four-byte tag and a big-endian uint32 length. A short tag
      gives the zero header; a short length still sets the tag. */
  function ChunkHeaderAt(data: seq<byte>, pos: nat): (c: ChunkParsed)
    requires pos <= |data|
    ensures pos <= c.pos <= |data|
    ensures c.err.None? <==> pos + 8 <= |data|
    ensures c.err.Some? ==> c.err == Some(UnexpectedEndOfFile) && c.pos == |data| && c.header.length == 0
    ensures pos + 4 <= |data| ==> c.header.chunkType == data[pos..pos + 4]
    ensures pos + 4 > |data| ==> c.header == EmptyChunkHeader
    ensures c.err.None? ==> c.pos == pos + 8 && Uint32Bytes(c.header.length) == data[pos + 4..pos + 8]
  {
    if |data| - pos < 4 then ChunkParsed(EmptyChunkHeader, Some(UnexpectedEndOfFile), |data|)
    else
      var tag := data[pos..pos + 4];
      var len := Uint32At(data, pos + 4);
      match len.result
      case Err(e) => ChunkParsed(ChunkHeader(tag, 0), Some(e), len.pos)
      case Ok(n) => ChunkParsed(ChunkHeader(tag, n), None, len.pos)
  }

  /** The division word split on bit 15: clear gives metrical time with the ticks
      per quarter note in bits 14-0; set gives time-code time with bits 14-0 kept
      unpacked. The field of the other format stays as it was. */
  function WithDivision(h: HeaderData, division: uint16): (r: HeaderData)
    ensures r.format == h.format && r.numTracks == h.numTracks
    ensures division < 0x8000 ==>
      r.timeFormat == MetricalTimeFormat && r.ticksPerQuarterNote == division &&
      r.timeFormatData == h.timeFormatData
    ensures division >= 0x8000 ==>
      r.timeFormat == TimeCodeTimeFormat && r.timeFormatData == division - 0x8000 &&
      r.ticksPerQuarterNote == h.ticksPerQuarterNote
  {
    if division / 0x8000 == 0 then
      h.(ticksPerQuarterNote := division % 0x8000, timeFormat := MetricalTimeFormat)
    else
      h.(timeFormatData := division % 0x8000, timeFormat := TimeCodeTimeFormat)
  }

  /** parseHeaderData: format, number of tracks and division, each a uint16. A
      format above 2 stops the decoder before the number of tracks is read. */
  function HeaderDataAt(data: seq<byte>, pos: nat): (p: Parsed<HeaderData>)
    requires pos <= |data|
    ensures pos <= p.pos <= |data|
    ensures p.result.Ok? ==> p.pos == pos + 6
  {
    var format := Uint16At(data, pos);
    match format.result
    case Err(e) => Parsed(Err(e), format.pos)
    case Ok(f) =>
      if f > 2 then Parsed(Err(UnsupportedSmfFormat), format.pos)
      else
        var tracks := Uint16At(data, format.pos);
        match tracks.result
        case Err(e) => Parsed(Err(e), tracks.pos)
        case Ok(n) =>
          var division := Uint16At(data, tracks.pos);
          match division.result
          case Err(e) => Parsed(Err(e), division.pos)
          case Ok(d) => Parsed(Ok(WithDivision(HeaderData(f, n, 0, 0, 0), d)), division.pos)
  }

  /** parseText: a variable-length byte count, then exactly that many bytes. */
  function TextAt(data: seq<byte>, pos: nat): (p: Parsed<seq<byte>>)
    requires pos <= |data|
    ensures pos <= p.pos <= |data|
    ensures p.result.Ok? ==>
      var n := VarLengthAt(data, pos);
      n.result.Ok? && n.result.value == |p.result.value| &&
      p.pos == n.pos + |p.result.value| && p.result.value == data[n.pos..p.pos]
  {
    var n := VarLengthAt(data, pos);
    match n.result
    case Err(e) => Parsed(Err(e), n.pos)
    case Ok(len) =>
      var k := ReadCount(len, |data| - n.pos);
      if k != len then Parsed(Err(UnexpectedEndOfFile), n.pos + k)
      else Parsed(Ok(data[n.pos..n.pos + k]), n.pos + k)
  }
}
