/** The decoders of midi_functions.go, each a method that reads from the cursor
    and is proved to return what the matching function of Decoding gives for the
    cursor's bytes and starting position, leaving the cursor where that function
    says. Go's `(value, err)` pairs become a Result; the value Go returns beside
    an error is not kept, except by ParseChunkHeader, whose caller looks at it. */
module MidiFunctions {
  import opened GoTypes
  import opened MidiErrors
  import opened MidiStructs
  import opened Mocks
  import opened Decoding

  method ParseUint32(reader: MockReadSeeker) returns (res: Result<uint32>)
    requires reader.Valid()
    modifies reader`position
    ensures reader.Valid()
    ensures Parsed(res, reader.position) == Uint32At(reader.data, old(reader.position))
  {
    var buffer := new byte[4](_ => 0);
    var num := reader.Read(buffer);
    if num != 4 {
      return Err(UnexpectedEndOfFile);
    }
    assert buffer[..4] == reader.data[old(reader.position)..old(reader.position) + 4];
    res := Ok(BigEndian32(buffer[0], buffer[1], buffer[2], buffer[3]));
  }

  method ParseUint16(reader: MockReadSeeker) returns (res: Result<uint16>)
    requires reader.Valid()
    modifies reader`position
    ensures reader.Valid()
    ensures Parsed(res, reader.position) == Uint16At(reader.data, old(reader.position))
  {
    var buffer := new byte[2](_ => 0);
    var num := reader.Read(buffer);
    if num != 2 {
      return Err(UnexpectedEndOfFile);
    }
    assert buffer[..2] == reader.data[old(reader.position)..old(reader.position) + 2];
    res := Ok(BigEndian16(buffer[0], buffer[1]));
  }

  method ParseUint7(reader: MockReadSeeker) returns (res: Result<uint8>)
    requires reader.Valid()
    modifies reader`position
    ensures reader.Valid()
    ensures Parsed(res, reader.position) == Uint7At(reader.data, old(reader.position))
  {
    var buffer := new byte[1](_ => 0);
    var num := reader.Read(buffer);
    if num != 1 {
      return Err(UnexpectedEndOfFile);
    }
    assert buffer[..1] == reader.data[old(reader.position)..old(reader.position) + 1];
    res := Ok(Low7(buffer[0]));
  }

  method ParseTwoUint7(reader: MockReadSeeker) returns (res: Result<(uint8, uint8)>)
    requires reader.Valid()
    modifies reader`position
    ensures reader.Valid()
    ensures Parsed(res, reader.position) == TwoUint7At(reader.data, old(reader.position))
  {
    var buffer := new byte[2](_ => 0);
    var num := reader.Read(buffer);
    if num != 2 {
      assert reader.position == |reader.data|;
      return Err(UnexpectedEndOfFile);
    }
    assert buffer[..2] == reader.data[old(reader.position)..old(reader.position) + 2];
    assert buffer[0] == reader.data[old(reader.position)] && buffer[1] == reader.data[old(reader.position) + 1];
    res := Ok((Low7(buffer[0]), Low7(buffer[1])));
  }

  method ParseUint8(reader: MockReadSeeker) returns (res: Result<uint8>)
    requires reader.Valid()
    modifies reader`position
    ensures reader.Valid()
    ensures Parsed(res, reader.position) == Uint8At(reader.data, old(reader.position))
  {
    var buffer := new byte[1](_ => 0);
    var num := reader.Read(buffer);
    if num != 1 {
      return Err(UnexpectedEndOfFile);
    }
    assert buffer[..1] == reader.data[old(reader.position)..old(reader.position) + 1];
    res := Ok(buffer[0]);
  }

  method ParsePitchWheelValue(reader: MockReadSeeker) returns (res: Result<(int16, uint16)>)
    requires reader.Valid()
    modifies reader`position
    ensures reader.Valid()
    ensures Parsed(res, reader.position) == PitchWheelAt(reader.data, old(reader.position))
  {
    var buffer := new byte[2](_ => 0);
    var num := reader.Read(buffer);
    if num != 2 {
      return Err(UnexpectedEndOfFile);
    }
    ghost var start := old(reader.position);
    assert buffer[..2] == reader.data[start..start + 2];
    assert buffer[0] == reader.data[start] && buffer[1] == reader.data[start + 1];
    var val := PitchWheelAbsolute(buffer[0], buffer[1]);
    assert PitchWheelAt(reader.data, start) == Parsed(Ok((PitchWheelRelative(val), val)), start + 2);
    res := Ok((PitchWheelRelative(val), val));
  }

  /** The loop reads one byte per turn, shifting the result left by seven bits
      (in uint32, so high bits fall off) and adding the byte's low seven bits,
      until a byte with bit 7 clear has been read or a read returns nothing. The
      shifted value has its low seven bits clear, so Go's `|=` is the `+` here. */
  method ParseVarLength(reader: MockReadSeeker) returns (res: Result<uint32>)
    requires reader.Valid()
    modifies reader`position
    ensures reader.Valid()
    ensures Parsed(res, reader.position) == VarLengthAt(reader.data, old(reader.position))
  {
    var buffer := new byte[1](_ => 0);
    var num: nat := 1;
    var result: uint32 := 0;
    var first := true;
    ghost var start := reader.position;
    ghost var target := VarLengthAt(reader.data, start);
    while (first || buffer[0] >= 0x80) && num > 0
      invariant reader.Valid() && start <= reader.position
      invariant num <= 1
      invariant first ==> reader.position == start && result == 0 && num == 1
      invariant first ==> target == VarLengthFrom(reader.data, reader.position, result)
      invariant !first && num > 0 ==>
        start < reader.position && buffer[0] == reader.data[reader.position - 1] &&
        (buffer[0] >= 0x80 ==> target == VarLengthFrom(reader.data, reader.position, result)) &&
        (buffer[0] < 0x80 ==> target == Parsed(Ok(result), reader.position))
      invariant !first && num == 0 ==> target == Parsed(Err(UnexpectedEndOfFile), reader.position)
      decreases |reader.data| - reader.position + num + (if first then 1 else 0)
    {
      assert target == VarLengthFrom(reader.data, reader.position, result);
      num, result := VarLengthTurn(reader, buffer, result);
      first := false;
    }
    if num == 0 && !first {
      return Err(UnexpectedEndOfFile);
    }
    res := Ok(result);
  }

  /** One turn of the loop: shift the result, read one byte, add its low seven
      bits. How the decoding goes on from there is what VarLengthFrom says. */
  method VarLengthTurn(reader: MockReadSeeker, buffer: array<byte>, acc: uint32) returns (num: nat, result: uint32)
    requires reader.Valid() && buffer.Length == 1
    modifies reader`position, buffer
    ensures reader.Valid() && num <= 1 && reader.position == old(reader.position) + num
    ensures num == 1 ==> buffer[0] == reader.data[old(reader.position)]
    ensures num == 0 ==>
      VarLengthFrom(reader.data, old(reader.position), acc) == Parsed(Err(UnexpectedEndOfFile), reader.position)
    ensures num == 1 && buffer[0] < 0x80 ==>
      VarLengthFrom(reader.data, old(reader.position), acc) == Parsed(Ok(result), reader.position)
    ensures num == 1 && buffer[0] >= 0x80 ==>
      VarLengthFrom(reader.data, old(reader.position), acc) == VarLengthFrom(reader.data, reader.position, result)
  {
    ghost var before := reader.position;
    result := ShiftLeft7(acc);
    num := reader.Read(buffer);
    if num == 1 {
      assert buffer[..1] == reader.data[before..before + 1];
    }
    VarLengthUnfold(reader.data, before, acc, num, buffer[0]);
    assert result + Low7(buffer[0]) == VlqStep(acc, buffer[0]);
    result := result + Low7(buffer[0]);
  }

  /** Go's chunk header is returned even beside an error: a short tag leaves it
      empty, a short length leaves the tag set and the length zero. */
  method ParseChunkHeader(reader: MockReadSeeker) returns (chunk: ChunkHeader, err: Option<Error>)
    requires reader.Valid()
    modifies reader`position
    ensures reader.Valid()
    ensures ChunkParsed(chunk, err, reader.position) == ChunkHeaderAt(reader.data, old(reader.position))
  {
    var chunkTypeBuffer := new byte[4](_ => 0);
    var num := reader.Read(chunkTypeBuffer);
    if num != 4 {
      return EmptyChunkHeader, Some(UnexpectedEndOfFile);
    }
    var length := ParseUint32(reader);
    var chunkType := chunkTypeBuffer[..];
    match length
    case Err(e) =>
      chunk, err := ChunkHeader(chunkType, 0), Some(e);
    case Ok(n) =>
      chunk, err := ChunkHeader(chunkType, n), None;
  }

  /** The division is split even when its read failed (on Go's zero value), and
      the error is looked at only afterwards, as in the source. */
  method ParseHeaderData(reader: MockReadSeeker) returns (res: Result<HeaderData>)
    requires reader.Valid()
    modifies reader`position
    ensures reader.Valid()
    ensures Parsed(res, reader.position) == HeaderDataAt(reader.data, old(reader.position))
  {
    var format := ParseUint16(reader);
    if format.Err? {
      return Err(format.error);
    }
    if format.value > 2 {
      return Err(UnsupportedSmfFormat);
    }
    var numTracks := ParseUint16(reader);
    if numTracks.Err? {
      return Err(numTracks.error);
    }
    var division := ParseUint16(reader);
    var headerData := WithDivision(HeaderData(format.value, numTracks.value, 0, 0, 0),
                                   if division.Ok? then division.value else 0);
    if division.Err? {
      return Err(division.error);
    }
    res := Ok(headerData);
  }

  method ReadStatusByte(reader: MockReadSeeker) returns (res: Result<(uint8, uint8)>)
    requires reader.Valid()
    modifies reader`position
    ensures reader.Valid()
    ensures Parsed(res, reader.position) == StatusByteAt(reader.data, old(reader.position))
  {
    var buffer := new byte[1](_ => 0);
    var num := reader.Read(buffer);
    if num != 1 {
      return Err(UnexpectedEndOfFile);
    }
    assert buffer[..1] == reader.data[old(reader.position)..old(reader.position) + 1];
    res := Ok((StatusType(buffer[0]), StatusChannel(buffer[0])));
  }

  method ParseText(reader: MockReadSeeker) returns (res: Result<seq<byte>>)
    requires reader.Valid()
    modifies reader`position
    ensures reader.Valid()
    ensures Parsed(res, reader.position) == TextAt(reader.data, old(reader.position))
  {
    var length := ParseVarLength(reader);
    if length.Err? {
      return Err(length.error);
    }
    var buffer := new byte[length.value](_ => 0);
    var num := reader.Read(buffer);
    if num != length.value {
      return Err(UnexpectedEndOfFile);
    }
    assert buffer[..] == buffer[..num];
    res := Ok(buffer[..]);
  }
}
