/**
 * What the music-theory library supplies: the parts of a key the voicing
 * engine consults, the resolved Roman numeral of each position, and the
 * analysis of an already voiced chord. These are inputs of the model.
 */
module Theory {
  import opened Wrappers
  import opened Pitches

  /** Scale degrees 1, 5 and 6 of a key and its (raised) leading tone. */
  datatype KeyContext = KeyContext(
    tonic: PitchClass,
    dominant: PitchClass,
    submediant: PitchClass,
    leadingTone: PitchClass)

  /**
   * A Roman numeral resolved in its key: the names of its pitches with the
   * bass first, its root, third and fifth, whether it holds a seventh, its
   * inversion, and whether the numeral is exactly "I".
   */
  datatype ChordDescriptor = ChordDescriptor(
    names: seq<PitchClass>,
    root: PitchClass,
    third: PitchClass,
    fifth: PitchClass,
    containsSeventh: bool,
    inversion: int,
    isI: bool)

  /** A seventh chord has four note names and a triad three. */
  predicate WellFormed(cd: ChordDescriptor)
  {
    |cd.names| == if cd.containsSeventh then 4 else 3
  }

  /**
   * The library's analysis of a voiced chord, recomputed from its four
   * pitches alone: its root, the pitch class of its seventh (if any), and
   * its inversion.
   */
  datatype Analysis = Analysis(
    root: Voicing -> PitchClass,
    seventh: Voicing -> Option<PitchClass>,
    inversion: Voicing -> int)
}
