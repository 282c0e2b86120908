/** The three decoders of the older copy of the package (midi/midi_functions.go),
    written over a plain reader. Each is proved against the same function of
    Decoding as its counterpart in MidiFunctions, so the two copies give the same
    value, error and final position on every byte sequence. */
module OldMidiFunctions {
  import opened GoTypes
  import opened MidiErrors
  import opened MidiStructs
  import opened OldMocks
  import opened Decoding

  method ParseUint32(reader: MockReader) returns (res: Result<uint32>)
    requires reader.Valid()
    modifies reader`position
    ensures reader.Valid()
    ensures Parsed(res, reader.position) == Uint32At(reader.data, old(reader.position))
  {
    var buffer := new byte[4](_ => 0);
    var num := reader.Read(buffer);
    if num != 4 {
      return Err(UnexpectedEndOfFile);
    }
    assert buffer[..4] == reader.data[old(reader.position)..old(reader.position) + 4];
    res := Ok(BigEndian32(buffer[0], buffer[1], buffer[2], buffer[3]));
  }

  /** The same loop as MidiFunctions.ParseVarLength. */
  method ParseVarLength(reader: MockReader) returns (res: Result<uint32>)
    requires reader.Valid()
    modifies reader`position
    ensures reader.Valid()
    ensures Parsed(res, reader.position) == VarLengthAt(reader.data, old(reader.position))
  {
    var buffer := new byte[1](_ => 0);
    var num: nat := 1;
    var result: uint32 := 0;
    var first := true;
    ghost var start := reader.position;
    ghost var target := VarLengthAt(reader.data, start);
    while (first || buffer[0] >= 0x80) && num > 0
      invariant reader.Valid() && start <= reader.position
      invariant num <= 1
      invariant first ==> reader.position == start && result == 0 && num == 1
      invariant first ==> target == VarLengthFrom(reader.data, reader.position, result)
      invariant !first && num > 0 ==>
        start < reader.position && buffer[0] == reader.data[reader.position - 1] &&
        (buffer[0] >= 0x80 ==> target == VarLengthFrom(reader.data, reader.position, result)) &&
        (buffer[0] < 0x80 ==> target == Parsed(Ok(result), reader.position))
      invariant !first && num == 0 ==> target == Parsed(Err(UnexpectedEndOfFile), reader.position)
      decreases |reader.data| - reader.position + num + (if first then 1 else 0)
    {
      assert target == VarLengthFrom(reader.data, reader.position, result);
      num, result := VarLengthTurn(reader, buffer, result);
      first := false;
    }
    if num == 0 && !first {
      return Err(UnexpectedEndOfFile);
    }
    res := Ok(result);
  }

  /** One turn of the loop: shift the result, read one byte, add its low seven
      bits. How the decoding goes on from there is what VarLengthFrom says. */
  method VarLengthTurn(reader: MockReader, buffer: array<byte>, acc: uint32) returns (num: nat, result: uint32)
    requires reader.Valid() && buffer.Length == 1
    modifies reader`position, buffer
    ensures reader.Valid() && num <= 1 && reader.position == old(reader.position) + num
    ensures num == 1 ==> buffer[0] == reader.data[old(reader.position)]
    ensures num == 0 ==>
      VarLengthFrom(reader.data, old(reader.position), acc) == Parsed(Err(UnexpectedEndOfFile), reader.position)
    ensures num == 1 && buffer[0] < 0x80 ==>
      VarLengthFrom(reader.data, old(reader.position), acc) == Parsed(Ok(result), reader.position)
    ensures num == 1 && buffer[0] >= 0x80 ==>
      VarLengthFrom(reader.data, old(reader.position), acc) == VarLengthFrom(reader.data, reader.position, result)
  {
    ghost var before := reader.position;
    result := ShiftLeft7(acc);
    num := reader.Read(buffer);
    if num == 1 {
      assert buffer[..1] == reader.data[before..before + 1];
    }
    VarLengthUnfold(reader.data, before, acc, num, buffer[0]);
    assert result + Low7(buffer[0]) == VlqStep(acc, buffer[0]);
    result := result + Low7(buffer[0]);
  }

  /** Go returns a pointer to the header; its contents are those of the newer
      copy, the tag set even when the length could not be read. */
  method ParseChunkHeader(reader: MockReader) returns (chunk: ChunkHeader, err: Option<Error>)
    requires reader.Valid()
    modifies reader`position
    ensures reader.Valid()
    ensures ChunkParsed(chunk, err, reader.position) == ChunkHeaderAt(reader.data, old(reader.position))
  {
    var chunkTypeBuffer := new byte[4](_ => 0);
    var num := reader.Read(chunkTypeBuffer);
    if num != 4 {
      return EmptyChunkHeader, Some(UnexpectedEndOfFile);
    }
    var length := ParseUint32(reader);
    var chunkType := chunkTypeBuffer[..];
    match length
    case Err(e) =>
      chunk, err := ChunkHeader(chunkType, 0), Some(e);
    case Ok(n) =>
      chunk, err := ChunkHeader(chunkType, n), None;
  }
}
