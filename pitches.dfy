/**
 * The pitch range model: absolute pitches as MIDI note numbers, pitch
 * classes, the four voice ranges, and the enumeration of every pitch of one
 * pitch class inside a range (voiceNote).
 */
module Pitches {

  /** An absolute pitch as a MIDI note number (C4 = 60). Spelling is not modelled. */
  type Pitch = int

  /** The pitch class a note name denotes: C = 0, C#/Db = 1, ..., B = 11. */
  type PitchClass = c: int | 0 <= c < 12

  /** A four-part voicing, indexed bass (0), tenor (1), alto (2), soprano (3). */
  type Voicing = v: seq<Pitch> | |v| == 4 witness [0, 0, 0, 0]

  function ClassOf(p: Pitch): PitchClass
  {
    p % 12
  }

  /** The octave number of a pitch in scientific pitch notation (C4 = 60 is in octave 4). */
  function OctaveOf(p: Pitch): int
  {
    p / 12 - 1
  }

  /** The pitch with class `c` written in octave `octave`, the MIDI value of Pitch(name + str(octave)). */
  function PitchAt(c: PitchClass, octave: int): (p: Pitch)
    ensures ClassOf(p) == c && OctaveOf(p) == octave
  {
    12 * (octave + 1) + c
  }

  /** The pitch classes of the voices of `v`, voice by voice. */
  function Classes(v: seq<Pitch>): (cs: seq<PitchClass>)
    ensures |cs| == |v|
    ensures forall k :: 0 <= k < |v| ==> cs[k] == ClassOf(v[k])
  {
    seq(|v|, k requires 0 <= k < |v| => ClassOf(v[k]))
  }

  /** 1 for true, 0 for false: how often a condition counts. */
  function Indicator(b: bool): nat
  {
    if b then 1 else 0
  }

  /** An inclusive pitch range. */
  datatype Range = Range(lo: Pitch, hi: Pitch) {
    predicate Contains(p: Pitch)
    {
      lo <= p <= hi
    }
  }

  /** The range of each of the four voices. */
  datatype Ranges = Ranges(soprano: Range, alto: Range, tenor: Range, bass: Range)

  /** Soprano C4-G5, alto G3-C5, tenor C3-G4, bass E2-C4. */
  const StandardRanges: Ranges :=
    Ranges(Range(60, 79), Range(55, 72), Range(48, 67), Range(40, 60))

  predicate Ascending(ps: seq<Pitch>)
  {
    forall i, j :: 0 <= i < j < |ps| ==> ps[i] < ps[j]
  }

  /** Octaves `octave` through `upper` of pitch class `c`, keeping those inside `r`. */
  function OctaveScan(c: PitchClass, r: Range, octave: int, upper: int): (ps: seq<Pitch>)
    ensures forall p :: p in ps <==> r.Contains(p) && ClassOf(p) == c && octave <= OctaveOf(p) <= upper
    ensures forall k :: 0 <= k < |ps| ==> octave <= OctaveOf(ps[k])
    ensures Ascending(ps)
    decreases upper - octave
  {
    if octave > upper then []
    else
      var p := PitchAt(c, octave);
      var rest := OctaveScan(c, r, octave + 1, upper);
      assert forall q :: ClassOf(q) == c && OctaveOf(q) == octave ==> q == p;
      (if r.Contains(p) then [p] else []) + rest
  }

  lemma OctaveMonotone(p: Pitch, q: Pitch)
    requires p <= q
    ensures OctaveOf(p) <= OctaveOf(q)
  {
  }

  /**
   * voiceNote: every pitch of class `c` inside `r`, in ascending order; the
   * octaves scanned are those of the two range bounds and the ones between.
   */
  function VoiceNote(c: PitchClass, r: Range): (ps: seq<Pitch>)
    ensures forall p :: p in ps <==> r.Contains(p) && ClassOf(p) == c
    ensures Ascending(ps)
  {
    var ps := OctaveScan(c, r, OctaveOf(r.lo), OctaveOf(r.hi));
    assert forall p :: r.Contains(p) ==> OctaveOf(r.lo) <= OctaveOf(p) <= OctaveOf(r.hi) by {
      forall p | r.Contains(p) ensures OctaveOf(r.lo) <= OctaveOf(p) <= OctaveOf(r.hi) {
        OctaveMonotone(r.lo, p);
        OctaveMonotone(p, r.hi);
      }
    }
    ps
  }

  /** No pitch of the class fits the range exactly when voiceNote yields nothing. */
  lemma VoiceNoteEmpty(c: PitchClass, r: Range)
    ensures VoiceNote(c, r) == [] <==> forall p :: r.Contains(p) ==> ClassOf(p) != c
  {
    var ps := VoiceNote(c, r);
    if ps != [] {
      assert ps[0] in ps;
    }
  }
}
