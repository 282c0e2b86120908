/** Constants of the Standard MIDI File format and the key-signature table (midi_values.go). */
module MidiValues {
  import opened GoTypes

  /** SMF formats, the first word of the MThd body. */
  const SingleMultiTrackChannel: uint16 := 0
  const SimultaneousTracks: uint16 := 1
  const SequentialTracks: uint16 := 2

  /** HeaderData.timeFormat values. */
  const MetricalTimeFormat: nat := 0
  const TimeCodeTimeFormat: nat := 1

  /** Key-signature modes. */
  type KeySignatureMode = uint8
  const MajorMode: KeySignatureMode := 0
  const MinorMode: KeySignatureMode := 1

  /** Scale degrees, counted in semitones from C. Enharmonic names share a value. */
  type ScaleDegree = x: uint8 | x < 12
  const DegreeC: ScaleDegree := 0
  const DegreeCs: ScaleDegree := 1
  const DegreeDf: ScaleDegree := DegreeCs
  const DegreeD: ScaleDegree := 2
  const DegreeDs: ScaleDegree := 3
  const DegreeEf: ScaleDegree := DegreeDs
  const DegreeE: ScaleDegree := 4
  const DegreeF: ScaleDegree := 5
  const DegreeFs: ScaleDegree := 6
  const DegreeGf: ScaleDegree := DegreeFs
  const DegreeG: ScaleDegree := 7
  const DegreeGs: ScaleDegree := 8
  const DegreeAf: ScaleDegree := DegreeGs
  const DegreeA: ScaleDegree := 9
  const DegreeAs: ScaleDegree := 10
  const DegreeBf: ScaleDegree := DegreeAs
  const DegreeB: ScaleDegree := 11
  const DegreeCf: ScaleDegree := DegreeB

  /** The SMF formats the header decoder accepts. */
  predicate IsSmfFormat(f: int) {
    f == SingleMultiTrackChannel || f == SimultaneousTracks || f == SequentialTracks
  }

  lemma SmfFormatsAreTheFirstThree(f: uint16)
    ensures IsSmfFormat(f) <==> f <= 2
  {
  }

  /** The tonic of the major key with `sf` sharps (positive) or flats (negative). */
  function MajorTonic(sf: int): (d: ScaleDegree)
    requires -7 <= sf <= 7
  {
    match sf
    case 0 => DegreeC
    case 1 => DegreeG
    case 2 => DegreeD
    case 3 => DegreeA
    case 4 => DegreeE
    case 5 => DegreeB
    case 6 => DegreeFs
    case 7 => DegreeCs
    case -1 => DegreeF
    case -2 => DegreeBf
    case -3 => DegreeEf
    case -4 => DegreeAf
    case -5 => DegreeDf
    case -6 => DegreeGf
    case _ => DegreeCf
  }

  /** The tonic of the relative minor key with `sf` sharps or flats. */
  function MinorTonic(sf: int): (d: ScaleDegree)
    requires -7 <= sf <= 7
  {
    match sf
    case 0 => DegreeA
    case 1 => DegreeE
    case 2 => DegreeB
    case 3 => DegreeFs
    case 4 => DegreeCs
    case 5 => DegreeGs
    case 6 => DegreeDs
    case 7 => DegreeAs
    case -1 => DegreeD
    case -2 => DegreeG
    case -3 => DegreeC
    case -4 => DegreeF
    case -5 => DegreeBf
    case -6 => DegreeEf
    case _ => DegreeAf
  }

  /** The key a key-signature meta event names: the tonic for the number of
      sharps or flats in the given mode, and the mode itself. */
  function KeySignatureFromSharpsOrFlats(sharpsOrFlats: int, mode: nat): (r: (ScaleDegree, KeySignatureMode))
    requires -7 <= sharpsOrFlats <= 7
    requires mode == MajorMode as nat || mode == MinorMode as nat
    ensures r.1 as nat == mode
  {
    if mode == MajorMode as nat then (MajorTonic(sharpsOrFlats), MajorMode)
    else (MinorTonic(sharpsOrFlats), MinorMode)
  }

  /** Every row of the table lies on the circle of fifths: each sharp raises the
      tonic by a fifth (seven semitones), and the relative minor is a minor third
      (nine semitones up) from its major. */
  lemma {:induction false} KeySignatureIsCircleOfFifths(sf: int, mode: nat)
    requires -7 <= sf <= 7
    requires mode == MajorMode as nat || mode == MinorMode as nat
    ensures mode == MajorMode as nat ==> KeySignatureFromSharpsOrFlats(sf, mode).0 as int == (7 * sf) % 12
    ensures mode == MinorMode as nat ==> KeySignatureFromSharpsOrFlats(sf, mode).0 as int == (7 * sf + 9) % 12
  {
    if sf == 0 {} else if sf == 1 {} else if sf == 2 {} else if sf == 3 {}
    else if sf == 4 {} else if sf == 5 {} else if sf == 6 {} else if sf == 7 {}
    else if sf == -1 {} else if sf == -2 {} else if sf == -3 {} else if sf == -4 {}
    else if sf == -5 {} else if sf == -6 {} else {}
  }

  /** Adding a sharp (or removing a flat) moves the tonic up a fifth, in both modes. */
  lemma KeySignatureNextSharp(sf: int, mode: nat)
    requires -7 <= sf < 7
    requires mode == MajorMode as nat || mode == MinorMode as nat
    ensures KeySignatureFromSharpsOrFlats(sf + 1, mode).0 as int ==
            (KeySignatureFromSharpsOrFlats(sf, mode).0 as int + 7) % 12
  {
    KeySignatureIsCircleOfFifths(sf, mode);
    KeySignatureIsCircleOfFifths(sf + 1, mode);
  }

  /** C major / A minor, and the two seven-accidental extremes, which wrap round to
      the enharmonic spellings C sharp / C flat. */
  lemma KeySignatureExamples()
    ensures KeySignatureFromSharpsOrFlats(0, 0) == (DegreeC, MajorMode)
    ensures KeySignatureFromSharpsOrFlats(0, 1) == (DegreeA, MinorMode)
    ensures KeySignatureFromSharpsOrFlats(7, 0) == (DegreeCs, MajorMode)
    ensures KeySignatureFromSharpsOrFlats(-7, 0) == (DegreeB, MajorMode)
    ensures KeySignatureFromSharpsOrFlats(-7, 1) == (DegreeGs, MinorMode)
  {
  }
}
