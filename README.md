# A verified model of the harmony voicing engine

This project models the four-part voicing engine of `voicing.py` in
ekzhang/harmony in Dafny. The engine turns a progression of Roman numerals
into soprano, alto, tenor and bass lines in three stages:

* **Candidate generation.** `voiceNote`, `_voiceTriadUnordered`,
  `_voiceChord` and `voiceChord` enumerate every legal voicing of one
  chord. They apply the voice ranges, the one-octave spacing of the upper
  voices and the doubling rules.
* **Cost model.** `chordCost` scores one voicing. `progressionCost`
  scores the move from one voicing to the next: voice overlap, leaps,
  parallel fifths and octaves, similar outer-voice motion, and the
  resolution of the chordal seventh and the leading tone.
* **Optimiser.** `voiceProgression` runs a dynamic program over the
  candidates of every position. It keeps one dictionary per position,
  mapping a voicing to its cheapest cost and its predecessor. It then
  walks the predecessors back from the cheapest final voicing.

Modules, one per file:

* `Wrappers` (`wrappers.dfy`): `Option` and `Result`.
* `Pitches` (`pitches.dfy`):
  * a pitch is a MIDI note number and its pitch class is `p % 12`;
  * a `Voicing` is a four-element sequence indexed bass 0, tenor 1, alto 2, soprano 3;
  * the ranges, and `voiceNote`.
* `Theory` (`theory.dfy`): what the music-theory library supplies.
  * `KeyContext` holds scale degrees 1, 5 and 6 and the leading tone.
  * `ChordDescriptor` is a resolved Roman numeral: its names with the bass first, root, third, fifth, whether it contains a seventh, its inversion, and whether the numeral is "I".
  * `Analysis` holds the library's root, seventh and inversion of a voiced chord, as functions of its four pitches.
* `Triads` (`triads.dfy`): `_voiceTriadUnordered`.
* `Chords` (`chords.dfy`): `_voiceChord` and `voiceChord`.
* `Costs` (`costs.dfy`):
  * `chordCost`;
  * `progressionCost`, as a method with the source's nested pair loop, proved equal to the term-by-term function `TransitionCost`.
* `Progression` (`progression.dfy`): the dynamic program.
  * It is a method over a sequence of candidate sequences.
  * Each DP table is a `map` from voicing to `Cell(cost, pred)`, with the dictionary's key order kept beside it.
  * The method is proved against specification functions (`Best`, `Pred`, `Final`, `Reconstruct`). These are generic over the node and edge weights being minimised.
  * They are in turn proved optimal.

The range constants of the source (soprano C4-G5, alto G3-C5, tenor C3-G4,
bass E2-C4) are `Pitches.StandardRanges`. Every generator takes the ranges
as a parameter.

Two behaviours of the code that shape the model:

* **Voices never cross.** The code bounds the alto by the soprano, the
  tenor by the alto and the bass by the tenor. So every generated voicing
  is ordered bass <= tenor <= alto <= soprano, and
  `Chords.VoiceChordShape` proves it.
* **Failure.** The code has no typed error: it raises whatever `min`,
  `dp[-1]` or a dictionary lookup raises. The model returns
  `Failure(EmptyProgression)` or `Failure(NoVoicings(k))`, where `k` is
  the first position without a candidate, exactly when the source would
  raise.

## Model

| member | source | states |
|---|---|---|
| Pitches.PitchAt | voicing.py:31 | The pitch written with a note name and an octave number has that pitch class and lies in that octave. |
| Pitches.OctaveScan | voicing.py:28-33 | Scanning octaves `octave..upper` yields exactly the pitches of the class that lie in the range and in those octaves, in strictly ascending order. |
| Pitches.VoiceNote | voicing.py:22-33 | voiceNote yields exactly the pitches of the requested class inside the inclusive range, in strictly ascending order. No in-range pitch is missed by scanning only the octaves of the two bounds. |
| Pitches.VoiceNoteEmpty | voicing.py:22-33 | voiceNote yields nothing exactly when no pitch of the class lies in the range. |
| Triads.WithTenors | voicing.py:45-46 | The tenor loop yields exactly the triples `[t, a, s]` for the tenor pitches `t` it is given. |
| Triads.OverAltos | voicing.py:42-46 | The alto loop yields exactly the triples whose alto is one of its altos and whose tenor has the tenor's class inside the tenor window under that alto. |
| Triads.OverSopranos | voicing.py:39-46 | The soprano loop yields exactly the triples whose soprano is one of its sopranos, with an alto of the alto class in its window and a tenor of the tenor class in its window. |
| Triads.WindowsAreSpacing | voicing.py:40-44 | The max/min windows with the octave transposition hold exactly when each voice is in its range, t <= a <= s, and adjacent voices are at most 12 semitones apart. |
| Triads.Placements | voicing.py:39-46 | For one assignment of names to voices, the three loops yield exactly the spaced triples with those pitch classes. |
| Triads.SameMultisetIsArranged | voicing.py:38 | Three classes are one of the six itertools.permutations orders of three names exactly when they have the same multiset (both directions). |
| Triads.VoiceTriad | voicing.py:36-46 | _voiceTriadUnordered: the placements of the six orders of the names, in itertools.permutations order. Its content is stated by Triads.VoiceTriadExact. |
| Triads.VoiceTriadExact | voicing.py:36-46 | _voiceTriadUnordered yields exactly the triples that are spaced and whose pitch classes are a permutation of the three names. |
| Chords.WithBass | voicing.py:53-57 | The bass loop over one triad yields exactly the voicings whose bass is one of the bass pitches, at or below the tenor, with that triad above it. |
| Chords.OverTriads | voicing.py:52-57 | Over all triads: exactly the voicings whose upper three voices are a yielded triad and whose bass has the bass class, lies in the bass range and is not above the tenor. |
| Chords.VoiceChord4 | voicing.py:49-57 | _voiceChord: the bass takes the first name under every triad voicing of the other three. Its content is stated by Chords.VoiceChord4Exact. |
| Chords.VoiceChord4Exact | voicing.py:49-57 | _voiceChord yields exactly the voicings with a bass of the first name in the bass range and not above the tenor, over a legal triad voicing of the other three names. The bass-tenor gap is unbounded. |
| Chords.ChordVoicingClasses | voicing.py:49-57 | The four pitch classes of such a voicing are a permutation of the four names. |
| Chords.Doublings | voicing.py:67-86 | The name lists voiceChord hands to the builder. Each has four names. Its branches are stated by Chords.SeventhChordNotes, Chords.SecondInversionDoublesFifth, Chords.TriadDoublings and Chords.TriadBranch. |
| Chords.VoiceAll | voicing.py:69-86 | Chaining the builder over a list of name lists yields exactly the voicings that are legal for some list. |
| Chords.VoiceChord | voicing.py:60-86 | voiceChord yields exactly the voicings that are legal for one of the doubling lists the chord offers. |
| Chords.VoiceChordShape | voicing.py:36-86 | Every voicing of a chord has each voice in its range, is ordered bass to soprano, keeps the upper voices within an octave of their neighbours, and uses the notes of one doubling. |
| Chords.SeventhChordNotes | voicing.py:69-70 | A seventh chord is voiced with exactly its four notes, and only with them. |
| Chords.SecondInversionDoublesFifth | voicing.py:71-73 | A second-inversion triad is voiced exactly with its three notes plus a second fifth. |
| Chords.TriadDoublings | voicing.py:74-83 | A root-position or first-inversion triad offers the root, third and fifth doublings, each whenever that tone is not the leading tone. |
| Chords.TriadBranch | voicing.py:74-86 | Such a triad offers nothing else: each doubling adds a non-leading-tone chord tone, or it is the tripled root with the third, and that only in root-position "I". |
| Chords.RootDoubledOffered | voicing.py:75-77 | Every legal voicing of a root-position or first-inversion triad with its root doubled is offered, unless the root is the leading tone. |
| Chords.LeadingToneNotDoubled | voicing.py:74-86 | If the triad holds the leading tone at most once, and for a root-position "I" its root is not the leading tone (so the tripled-root branch does not triple it), no doubling holds the leading tone twice. |
| Chords.LeadingToneNotDoubledInVoicing | voicing.py:60-86 | Under the same conditions no voicing of the chord puts the leading tone in two voices. |
| Chords.FifthOmittedOnlyInTonic | voicing.py:84-86 | A voicing that leaves out the fifth comes from a root-position "I" triad and is the tripled root plus the third. |
| Chords.BassHasFirstName | voicing.py:51-54 | The bass of every voicing has the first note name of the chord, given that a root-position "I" triad has its root as first name (the tripled-root list is built from the root). |
| Chords.TonicVoicedInC | voicing.py:16-19 | At the source's own ranges, I in C major is voiced as C3 E3 G3 C4, so the generators yield voicings at those ranges. |
| Costs.FirstVoiceOf | voicing.py:129 | The index lookup returns the lowest voice with the class, and no voice exactly when no voice holds that class. |
| Costs.ClassMultiplicity | voicing.py:159 | pitchClasses.count of a class is the number of voices holding it. |
| Costs.ChordCost | voicing.py:154-161 | chordCost is 0 or 1. It is 1 exactly when the analysed inversion is 0 and no two voices hold the root's pitch class. |
| Costs.CrossingTerm | voicing.py:93-102 | The overlap term. It is characterised by Costs.CrossingPenalty. |
| Costs.LeapTerm | voicing.py:104-109 | The big-jump term. It is characterised by Costs.SopranoLeapFree, Costs.InnerLeapFree, Costs.BassLeapFree and Costs.LeapFree, and Costs.LeapCost is proved to compute it. |
| Costs.PairTerm | voicing.py:114-125 | The motion cost of one voice pair. It is characterised by Costs.ParallelFifthsPenalized, Costs.ParallelOctavesPenalized and Costs.OuterVoiceMotion. |
| Costs.SeventhTerm | voicing.py:127-132 | The seventh-resolution term. It is characterised by Costs.SeventhResolution. |
| Costs.LeadingToneTerm | voicing.py:134-149 | The leading-tone term. It is characterised by Costs.LeadingToneResolution. |
| Costs.TransitionCost | voicing.py:89-151 | The sum of the five terms. Costs.ProgressionCost is proved to compute it, and Costs.HeldChordCost and Costs.HeldChordCostInKey give its value for a held voicing. |
| Costs.LeapCost | voicing.py:104-109 | The big-jump block adds exactly the soprano, alto, tenor and bass leap costs. |
| Costs.MotionCost | voicing.py:111-125 | The nested pair loop adds exactly the parallel-motion term, summed over every pair of voices. |
| Costs.ProgressionCost | voicing.py:89-151 | progressionCost returns exactly TransitionCost: the sum of the crossing, leap, motion, seventh and leading-tone terms. |
| Costs.CrossingPenalty | voicing.py:93-102 | The overlap term is a single 40 or 0. It is 40 exactly when some voice moves above the old position of its upper neighbour, or below that of its lower one. |
| Costs.SopranoLeapFree | voicing.py:106 | The soprano term is 0 exactly for a move of 1 or 2 semitones, and a static soprano costs exactly 1. |
| Costs.InnerLeapFree | voicing.py:107-108 | An alto or tenor term is 0 exactly for a move of at most one semitone. |
| Costs.BassLeapFree | voicing.py:109 | The bass term is 0 exactly for a move of at most 7 semitones or of exactly 12. |
| Costs.LeapFree | voicing.py:104-109 | The leap terms add nothing exactly when all four voices move within those bounds. |
| Costs.MotionTermSixPairs | voicing.py:112-113 | The motion term is the sum of the terms of the six voice pairs. |
| Costs.ParallelFifthsPenalized | voicing.py:116-120 | Two voices, not both static, forming fifths (mod 12) before and after make the move cost at least 60. |
| Costs.ParallelOctavesPenalized | voicing.py:116-122 | Two voices, not both static, forming octaves or unisons (mod 12) before and after make the move cost at least 100. |
| Costs.OuterVoiceMotion | voicing.py:123-125 | Away from parallel fifths and octaves, the bass-soprano pair costs 2 for similar motion and 0 for contrary or oblique motion. |
| Costs.HeldChordCost | voicing.py:89-151 | Holding a voicing costs 1 for the static soprano, plus 100 when a dominant chord holding the leading tone is analysed as a tonic. |
| Costs.HeldChordCostInKey | voicing.py:89-151 | In a key whose degrees 1, 5, 6 and leading tone differ, holding an ordered voicing costs exactly 1: only the static soprano is charged. |
| Costs.LeadingToneResolution | voicing.py:134-149 | On a dominant-to-tonic move the leading-tone term is 0 or 100. It is 0 exactly when the first voice holding the leading tone rises a semitone, or (tenor or alto) falls a major third. |
| Costs.SeventhResolution | voicing.py:127-132 | The seventh term is 0 or 100. It is 0 exactly when the first voice holding the seventh falls by one or two semitones or stays. |
| Progression.Dedup | voicing.py:181-191 | A dictionary's keys are exactly the candidates inserted, and a non-empty candidate list gives a non-empty table. |
| Progression.DedupDistinct | voicing.py:181-191 | A dictionary's keys are pairwise distinct. |
| Progression.DedupSnoc | voicing.py:182-191 | Inserting a voicing keeps the existing key order and appends the voicing only if it is new. |
| Progression.FirstCheapest | voicing.py:185-190 | The index the predecessor loop keeps among the first k keys; it is one of them. Progression.FirstCheapestIsFirstMinimum states that it is the first cheapest. |
| Progression.Pred | voicing.py:186-191 | The predecessor the table records. Progression.PredIsCandidate and Progression.FirstCheapestIsFirstMinimum state what it is. |
| Progression.Best | voicing.py:182-191 | The cost the table records. Progression.BestIsPathCost and Progression.BestIsMinimal state that it is the cheapest path total. |
| Progression.FirstCheapestFinal | voicing.py:193 | The index `min` keeps among the first k final keys; it is one of them. Progression.FirstCheapestFinalIsFirstMinimum states that it is the first cheapest. |
| Progression.Final | voicing.py:193 | The voicing `min` chooses at the last position. Progression.Optimal states that the path read back from it is optimal. |
| Progression.FirstCheapestIsFirstMinimum | voicing.py:185-190 | The predecessor loop's choice is a cheapest arrival among the previous keys, and every earlier key is strictly dearer (the strict `<`). |
| Progression.FirstCheapestFinalIsFirstMinimum | voicing.py:193 | `min` chooses a cheapest final key, and every earlier key is strictly dearer. |
| Progression.PredIsCandidate | voicing.py:186-190 | The recorded predecessor is a candidate of the previous position. |
| Progression.Reconstruct | voicing.py:194-197 | The path read back from a voicing at position i has i + 1 entries and ends in that voicing. |
| Progression.ReconstructChosen | voicing.py:194-197 | The path read back from a candidate takes a candidate at every earlier position. |
| Progression.ReconstructLink | voicing.py:194-197 | Along the path read back, each voicing is the recorded predecessor of the next. |
| Progression.BestIsPathCost | voicing.py:176-191 | A voicing's recorded cost is the chordCost-plus-progressionCost total of the path read back from it. |
| Progression.BestIsMinimal | voicing.py:176-191 | No choice of candidates ending in a voicing at position i costs less than that voicing's recorded cost. |
| Progression.Optimal | voicing.py:164-198 | The path read back from the final choice covers the progression with candidates, costs its recorded total, and no choice of candidates costs less. |
| Progression.Relax | voicing.py:184-191 | The predecessor loop for one voicing produces exactly its specified table entry: cheapest cost plus chordCost, and the first cheapest predecessor. |
| Progression.FillTable | voicing.py:177-191 | Filling one position yields the dictionary's key order and, for every candidate, its specified entry (chordCost and no predecessor at position 0). |
| Progression.FillTables | voicing.py:176-191 | The table of every position, filled in order, holds exactly the specified entries of its candidates. |
| Progression.CheapestFinal | voicing.py:193 | `min` over the last table returns the specified final voicing, which is a candidate, together with its recorded cost. |
| Progression.TablesTrace | voicing.py:194-197 | Along the path read back, every voicing is a key of its table, whose backpointer is None at position 0 and the previous voicing elsewhere. |
| Progression.Backtrack | voicing.py:194-198 | Walking the backpointers and reversing the appended list returns exactly the trail the pointers spell. |
| Progression.FirstUnvoiced | voicing.py:193-197 | Finds the first position with no candidate, and none exactly when every position has one. |
| Progression.Optimize | voicing.py:176-198 | The DP fails exactly on an empty progression or a position without candidates, naming the first such position. Otherwise it returns the reconstructed path and its cost: one candidate per position, cost equal to the path total, and no choice cheaper. |
| Progression.CandidatesAreVoicings | voicing.py:177-179 | The candidates of each position are exactly the legal voicings of one of the doublings its chord offers. Each keeps every voice in its range, bass to soprano in order, and the upper voices within an octave. |
| Progression.VoiceProgression | voicing.py:164-198 | voiceProgression fails exactly when the progression is empty or some chord has no voicing. Otherwise it returns one voicing of each chord, its total cost equals chordCost plus progressionCost along the path, and no other choice of voicings costs less. |

## Left out

- Pitch spelling. Pitches are MIDI numbers, and note names are compared by pitch class. At the B#/Cb octave boundary, `Pitch(name + str(octave))` in music21 lands in a neighbouring MIDI octave, and the model does not reproduce that.
- music21 itself. Roman-numeral parsing, `Key.getPitches`/`getLeadingTone` and the analysis of a voiced chord (`root()`, `seventh`, `inversion()`) are inputs: `ChordDescriptor`, `KeyContext` and the function fields of `Analysis`.
- The analysed seventh is a pitch class. The voice charged is the lowest voice holding that class, which is the voice `chord1.pitches.index(chord1.seventh)` finds. An analysed seventh that no voice holds adds no penalty; music21 never produces one.
- The string form of a progression (`split` on whitespace), `Key(key)` construction and the `lyric` label attached to each returned chord are left out. The model returns the voicings as pitch sequences.
- Costs.ChordCost: the source's unused `key` parameter is dropped.
- The `assert len(noteNames) == ...` checks of the generators are the `WellFormed` precondition (three names for a triad, four for a seventh chord) and `|names| == 3` / `|names| == 4`.
- The dynamic-programming state of the source:
  - The `float("inf")` sentinel of the predecessor loop is an `Option` meaning "no predecessor seen yet".
  - Instead of raising from `min`, `dp[-1]` or a `None` dictionary lookup, the model returns an explicit `Failure`. It checks for this before filling any table, so the partial tables the source builds before raising are not modelled.
- Progression: `voiceProgression` is one method in the source. Here it is split into helper methods, one per loop (predecessor loop, table fill, final `min`, backtrack). They run in the same order over the same data.
- `generateScore`, `generateChorale`, `main` and `app.py`: score building, durations, argument parsing, web handling and file output. They are rendering and I/O around the engine.
