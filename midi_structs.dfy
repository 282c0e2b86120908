/** The records handed to the callback (midi_structs.go). */
module MidiStructs {
  import opened GoTypes

  /** A chunk header: a four-byte type tag and the length of the chunk body.
      Go keeps the tag as a `string` built from the raw bytes. */
  datatype ChunkHeader = ChunkHeader(chunkType: seq<byte>, length: uint32)

  /** The SMF header. `timeFormat` is MetricalTimeFormat or TimeCodeTimeFormat;
      only the field that belongs to it is set, the other stays zero. */
  datatype HeaderData = HeaderData(
    format: uint16,
    numTracks: uint16,
    timeFormat: nat,
    timeFormatData: uint16,
    ticksPerQuarterNote: uint16)

  /** The zero values Go starts a `var chunk ChunkHeader` with. */
  const EmptyChunkHeader := ChunkHeader([], 0)

  /** "MThd" and "MTrk" as bytes. */
  const MThd: seq<byte> := [0x4D, 0x54, 0x68, 0x64]
  const MTrk: seq<byte> := [0x4D, 0x54, 0x72, 0x6B]
}
