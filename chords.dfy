/**
 * The chord voicer: the four-voice builder (_voiceChord), which puts a bass
 * of the first name under every triad voicing of the other three, and
 * voiceChord, which chooses the doublings of a chord.
 */
module Chords {
  import opened Pitches
  import opened Theory
  import opened Triads

  /** The bass pitches of `basses` that lie at or below the tenor of `tri`, each under `tri`. */
  function WithBass(basses: seq<Pitch>, tri: seq<Pitch>): (vs: seq<Voicing>)
    requires |tri| == 3
    ensures forall v :: v in vs <==> v[0] in basses && v[0] <= tri[0] && v[1..] == tri
  {
    if basses == [] then []
    else
      var v: Voicing := [basses[0]] + tri;
      assert forall w: Voicing :: w[0] == basses[0] && w[1..] == tri ==> w == v by {
        forall w: Voicing | w[0] == basses[0] && w[1..] == tri ensures w == v {
          assert w == [w[0]] + w[1..];
        }
      }
      (if basses[0] <= tri[0] then [v] else []) + WithBass(basses[1..], tri)
  }

  /** For each triad voicing in order, every bass of class `bc` at or below its tenor. */
  function OverTriads(tris: seq<seq<Pitch>>, bc: PitchClass, rg: Ranges): (vs: seq<Voicing>)
    requires forall t :: t in tris ==> |t| == 3
    ensures forall v :: v in vs <==>
      v[1..] in tris && rg.bass.Contains(v[0]) && ClassOf(v[0]) == bc && v[0] <= v[1]
  {
    if tris == [] then []
    else WithBass(VoiceNote(bc, rg.bass), tris[0]) + OverTriads(tris[1..], bc, rg)
  }

  /**
   * _voiceChord: the bass takes the first name, the triad voicer places the
   * other three, and the bass may not lie above the tenor.
   */
  function VoiceChord4(names: seq<PitchClass>, rg: Ranges): (vs: seq<Voicing>)
    requires |names| == 4
  {
    var tris := VoiceTriad(names[1..], rg);
    VoiceTriadExact(names[1..], rg);
    OverTriads(tris, names[0], rg)
  }

  /**
   * A legal four-voice voicing of `names`: the bass in its range with the
   * first name and not above the tenor, the upper three a legal triad
   * voicing of the other names. The bass-tenor gap is not bounded.
   */
  predicate ChordVoicing(v: Voicing, names: seq<PitchClass>, rg: Ranges)
    requires |names| == 4
  {
    && rg.bass.Contains(v[0]) && ClassOf(v[0]) == names[0] && v[0] <= v[1]
    && TriadVoicing(v[1..], names[1..], rg)
  }

  /** The four-voice builder yields exactly the legal four-voice voicings of its names. */
  lemma VoiceChord4Exact(names: seq<PitchClass>, rg: Ranges)
    requires |names| == 4
    ensures forall v :: v in VoiceChord4(names, rg) <==> ChordVoicing(v, names, rg)
  {
    VoiceTriadExact(names[1..], rg);
  }

  /** The pitch classes of a legal four-voice voicing are a permutation of its names. */
  lemma ChordVoicingClasses(v: Voicing, names: seq<PitchClass>, rg: Ranges)
    requires |names| == 4 && ChordVoicing(v, names, rg)
    ensures multiset(Classes(v)) == multiset(names)
  {
    assert Classes(v) == [ClassOf(v[0])] + Classes(v[1..]);
    assert names == [names[0]] + names[1..];
  }

  /**
   * The name lists voiceChord hands to the four-voice builder, in order:
   * a seventh chord as it is; a second-inversion triad with its fifth
   * doubled; otherwise the root, third and fifth doublings, each unless
   * that tone is the leading tone, and for a root-position "I" the tripled
   * root without fifth.
   */
  function Doublings(key: KeyContext, cd: ChordDescriptor): (bs: seq<seq<PitchClass>>)
    requires WellFormed(cd)
    ensures forall b :: b in bs ==> |b| == 4
  {
    var lt := key.leadingTone;
    if cd.containsSeventh then [cd.names]
    else if cd.inversion == 2 then [cd.names + [cd.fifth]]
    else
      (if cd.root != lt then [cd.names + [cd.root]] else []) +
      (if cd.third != lt then [cd.names + [cd.third]] else []) +
      (if cd.fifth != lt then [cd.names + [cd.fifth]] else []) +
      (if cd.isI && cd.inversion == 0 then [[cd.root, cd.root, cd.root, cd.third]] else [])
  }

  /** The voicings of each name list in `bs`, one list after the other. */
  function VoiceAll(bs: seq<seq<PitchClass>>, rg: Ranges): (vs: seq<Voicing>)
    requires forall b :: b in bs ==> |b| == 4
    ensures forall v :: v in vs <==> exists b :: b in bs && ChordVoicing(v, b, rg)
  {
    if bs == [] then []
    else
      VoiceChord4Exact(bs[0], rg);
      VoiceChord4(bs[0], rg) + VoiceAll(bs[1..], rg)
  }

  /** voiceChord: the four-part voicings of a chord in a key. */
  function VoiceChord(key: KeyContext, cd: ChordDescriptor, rg: Ranges): (vs: seq<Voicing>)
    requires WellFormed(cd)
    ensures forall v :: v in vs <==> exists b: seq<PitchClass> :: b in Doublings(key, cd) && ChordVoicing(v, b, rg)
  {
    VoiceAll(Doublings(key, cd), rg)
  }

  /**
   * Every voicing of a chord keeps each voice in its range, has
   * bass <= tenor <= alto <= soprano, keeps the upper voices within an octave
   * of their neighbours, and uses the notes of one of its doublings.
   */
  lemma VoiceChordShape(key: KeyContext, cd: ChordDescriptor, rg: Ranges, v: Voicing)
    requires WellFormed(cd) && v in VoiceChord(key, cd, rg)
    ensures rg.bass.Contains(v[0]) && rg.tenor.Contains(v[1]) && rg.alto.Contains(v[2]) && rg.soprano.Contains(v[3])
    ensures v[0] <= v[1] <= v[2] <= v[3]
    ensures v[3] - v[2] <= 12 && v[2] - v[1] <= 12
    ensures exists b: seq<PitchClass> :: b in Doublings(key, cd) && multiset(Classes(v)) == multiset(b)
  {
    var b: seq<PitchClass> :| b in Doublings(key, cd) && ChordVoicing(v, b, rg);
    ChordVoicingClasses(v, b, rg);
    assert v[1..][0] == v[1] && v[1..][1] == v[2] && v[1..][2] == v[3];
  }

  /** A seventh chord is voiced with exactly its four notes, bass first. */
  lemma SeventhChordNotes(key: KeyContext, cd: ChordDescriptor, rg: Ranges)
    requires WellFormed(cd) && cd.containsSeventh
    ensures forall v :: v in VoiceChord(key, cd, rg) <==> ChordVoicing(v, cd.names, rg)
    ensures forall v :: v in VoiceChord(key, cd, rg) ==> multiset(Classes(v)) == multiset(cd.names)
  {
    forall v | v in VoiceChord(key, cd, rg) ensures multiset(Classes(v)) == multiset(cd.names) {
      ChordVoicingClasses(v, cd.names, rg);
    }
  }

  /** A second-inversion triad doubles its fifth: it is voiced with its notes and a second fifth. */
  lemma SecondInversionDoublesFifth(key: KeyContext, cd: ChordDescriptor, rg: Ranges)
    requires WellFormed(cd) && !cd.containsSeventh && cd.inversion == 2
    ensures forall v :: v in VoiceChord(key, cd, rg) <==> ChordVoicing(v, cd.names + [cd.fifth], rg)
    ensures forall v :: v in VoiceChord(key, cd, rg) ==>
      multiset(Classes(v)) == multiset(cd.names) + multiset{cd.fifth}
  {
    forall v | v in VoiceChord(key, cd, rg)
      ensures multiset(Classes(v)) == multiset(cd.names) + multiset{cd.fifth}
    {
      ChordVoicingClasses(v, cd.names + [cd.fifth], rg);
    }
  }

  /** The doublings of a root-position or first-inversion triad, branch by branch. */
  lemma TriadPieces(key: KeyContext, cd: ChordDescriptor)
    requires WellFormed(cd) && !cd.containsSeventh && cd.inversion != 2
    ensures Doublings(key, cd) ==
      (if cd.root != key.leadingTone then [cd.names + [cd.root]] else []) +
      (if cd.third != key.leadingTone then [cd.names + [cd.third]] else []) +
      (if cd.fifth != key.leadingTone then [cd.names + [cd.fifth]] else []) +
      (if cd.isI && cd.inversion == 0 then [[cd.root, cd.root, cd.root, cd.third]] else [])
  {
  }

  /**
   * A root-position or first-inversion triad offers to double its root, its
   * third and its fifth, each whenever that tone is not the leading tone
   * (TriadBranch shows it offers nothing else).
   */
  lemma TriadDoublings(key: KeyContext, cd: ChordDescriptor)
    requires WellFormed(cd) && !cd.containsSeventh && cd.inversion != 2
    ensures forall x :: x in [cd.root, cd.third, cd.fifth] && x != key.leadingTone ==>
      cd.names + [x] in Doublings(key, cd)
  {
    TriadPieces(key, cd);
    var lt := key.leadingTone;
    forall x | x in [cd.root, cd.third, cd.fifth] && x != lt ensures cd.names + [x] in Doublings(key, cd) {
      if x == cd.root {
        assert cd.names + [x] in [cd.names + [cd.root]];
      } else if x == cd.third {
        assert cd.names + [x] in [cd.names + [cd.third]];
      } else {
        assert cd.names + [x] in [cd.names + [cd.fifth]];
      }
    }
  }

  /** A voicing of a chord, with the doubling it came from. */
  lemma DoublingOf(key: KeyContext, cd: ChordDescriptor, rg: Ranges, v: Voicing) returns (b: seq<PitchClass>)
    requires WellFormed(cd) && v in VoiceChord(key, cd, rg)
    ensures b in Doublings(key, cd) && |b| == 4 && multiset(Classes(v)) == multiset(b)
  {
    b :| b in Doublings(key, cd) && ChordVoicing(v, b, rg);
    ChordVoicingClasses(v, b, rg);
  }

  /**
   * A root-position or first-inversion triad offers nothing else: each of
   * its doublings adds a tone `x` other than the leading tone, or (root
   * position "I" only) triples the root and omits the fifth.
   */
  lemma TriadBranch(key: KeyContext, cd: ChordDescriptor, b: seq<PitchClass>) returns (tripled: bool, x: PitchClass)
    requires WellFormed(cd) && !cd.containsSeventh && cd.inversion != 2 && b in Doublings(key, cd)
    ensures tripled ==> cd.isI && cd.inversion == 0 && b == [cd.root, cd.root, cd.root, cd.third]
    ensures !tripled ==> x in [cd.root, cd.third, cd.fifth] && x != key.leadingTone && b == cd.names + [x]
  {
    TriadPieces(key, cd);
    var lt := key.leadingTone;
    var r := if cd.root != lt then [cd.names + [cd.root]] else [];
    var t := if cd.third != lt then [cd.names + [cd.third]] else [];
    var f := if cd.fifth != lt then [cd.names + [cd.fifth]] else [];
    var i := if cd.isI && cd.inversion == 0 then [[cd.root, cd.root, cd.root, cd.third]] else [];
    assert b in r || b in t || b in f || b in i;
    tripled, x := false, cd.root;
    if b in r {
    } else if b in t {
      x := cd.third;
    } else if b in f {
      x := cd.fifth;
    } else {
      tripled := true;
    }
  }

  /**
   * Where the doubling is discretionary the leading tone is never doubled:
   * if the chord holds it at most once (and the tripled-root branch does not
   * triple it), no doubling holds it twice.
   */
  lemma LeadingToneNotDoubled(key: KeyContext, cd: ChordDescriptor, b: seq<PitchClass>)
    requires WellFormed(cd) && !cd.containsSeventh && cd.inversion != 2
    requires multiset(cd.names)[key.leadingTone] <= 1
    requires cd.isI && cd.inversion == 0 ==> cd.root != key.leadingTone
    requires b in Doublings(key, cd)
    ensures multiset(b)[key.leadingTone] <= 1
  {
    var lt := key.leadingTone;
    var tripled, x := TriadBranch(key, cd, b);
    if tripled {
      assert multiset(b) == multiset{cd.root, cd.root, cd.root, cd.third};
    } else {
      assert multiset(b) == multiset(cd.names) + multiset{x};
    }
  }

  /** No voicing of such a chord holds the leading tone in two voices. */
  lemma LeadingToneNotDoubledInVoicing(key: KeyContext, cd: ChordDescriptor, rg: Ranges, v: Voicing)
    requires WellFormed(cd) && !cd.containsSeventh && cd.inversion != 2
    requires multiset(cd.names)[key.leadingTone] <= 1
    requires cd.isI && cd.inversion == 0 ==> cd.root != key.leadingTone
    requires v in VoiceChord(key, cd, rg)
    ensures multiset(Classes(v))[key.leadingTone] <= 1
  {
    var b := DoublingOf(key, cd, rg, v);
    LeadingToneNotDoubled(key, cd, b);
  }

  /**
   * The fifth of a triad is left out of a voicing only by the tripled-root
   * branch, so only for a root-position "I".
   */
  lemma FifthOmittedOnlyInTonic(key: KeyContext, cd: ChordDescriptor, rg: Ranges, v: Voicing)
    requires WellFormed(cd) && cd.fifth in cd.names
    requires v in VoiceChord(key, cd, rg) && cd.fifth !in Classes(v)
    ensures !cd.containsSeventh && cd.isI && cd.inversion == 0
    ensures multiset(Classes(v)) == multiset{cd.root, cd.root, cd.root, cd.third}
  {
    var b := DoublingOf(key, cd, rg, v);
    assert cd.fifth !in multiset(Classes(v));
    assert cd.fifth in multiset(cd.names);
    if !cd.containsSeventh && cd.inversion != 2 {
      var tripled, x := TriadBranch(key, cd, b);
      if tripled {
        assert multiset(b) == multiset{cd.root, cd.root, cd.root, cd.third};
      }
    }
  }

  /** The bass always has the first name handed to the builder, the chord's bass for a numeral in root position "I". */
  lemma BassHasFirstName(key: KeyContext, cd: ChordDescriptor, rg: Ranges, v: Voicing)
    requires WellFormed(cd) && v in VoiceChord(key, cd, rg)
    requires cd.isI && cd.inversion == 0 && !cd.containsSeventh ==> cd.names[0] == cd.root
    ensures ClassOf(v[0]) == cd.names[0]
  {
    var b: seq<PitchClass> :| b in Doublings(key, cd) && ChordVoicing(v, b, rg);
    if !cd.containsSeventh && cd.inversion != 2 {
      var tripled, x := TriadBranch(key, cd, b);
    }
  }

  /**
   * Every legal voicing of a root-position or first-inversion triad with
   * its root doubled is offered, unless the root is the leading tone.
   */
  lemma RootDoubledOffered(key: KeyContext, cd: ChordDescriptor, rg: Ranges, v: Voicing)
    requires WellFormed(cd) && !cd.containsSeventh && cd.inversion != 2 && cd.root != key.leadingTone
    requires ChordVoicing(v, cd.names + [cd.root], rg)
    ensures v in VoiceChord(key, cd, rg)
  {
    TriadDoublings(key, cd);
  }

  /** C major: tonic C, dominant G, submediant A, leading tone B. */
  const CMajor: KeyContext := KeyContext(0, 7, 9, 11)

  /** The numeral I in C major: C E G in root position. */
  const TonicInC: ChordDescriptor := ChordDescriptor([0, 4, 7], 0, 4, 7, false, 0, true)

  /** At the standard ranges, I in C major has the voicing C3 E3 G3 C4 (root doubled). */
  lemma TonicVoicedInC()
    ensures [48, 52, 55, 60] in VoiceChord(CMajor, TonicInC, StandardRanges)
  {
    var v: Voicing := [48, 52, 55, 60];
    var names := TonicInC.names + [TonicInC.root];
    assert names == [0, 4, 7, 0];
    assert v[1..] == [52, 55, 60] && names[1..] == [4, 7, 0];
    assert Classes(v[1..]) == [4, 7, 0];
    assert ChordVoicing(v, names, StandardRanges);
    RootDoubledOffered(CMajor, TonicInC, StandardRanges, v);
  }
}
