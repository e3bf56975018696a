/**
 * The cost model: chordCost, the preference of one voicing, and
 * progressionCost, the voice-leading cost of moving from one voicing to the
 * next. TransitionCost is the term-by-term definition that the
 * ProgressionCost method is proved to compute.
 */
module Costs {
  import opened Wrappers
  import opened Pitches
  import opened Theory

  function Abs(x: int): nat
  {
    if x < 0 then -x else x
  }

  /** The lowest voice of `v` that holds pitch class `c` (list.index on the pitch names). */
  function FirstVoiceOf(v: Voicing, c: PitchClass): (k: Option<nat>)
    ensures k.Some? ==> k.value < 4 && ClassOf(v[k.value]) == c
    ensures k.Some? ==> forall j :: 0 <= j < k.value ==> ClassOf(v[j]) != c
    ensures k.None? <==> c !in Classes(v)
  {
    assert Classes(v) == [ClassOf(v[0]), ClassOf(v[1]), ClassOf(v[2]), ClassOf(v[3])];
    if ClassOf(v[0]) == c then Some(0)
    else if ClassOf(v[1]) == c then Some(1)
    else if ClassOf(v[2]) == c then Some(2)
    else if ClassOf(v[3]) == c then Some(3)
    else None
  }

  // ----- chordCost -----

  /** How many voices of `v` hold pitch class `c`, as counted by pitchClasses.count. */
  lemma ClassMultiplicity(v: Voicing, c: PitchClass)
    ensures multiset(Classes(v))[c] ==
      Indicator(ClassOf(v[0]) == c) + Indicator(ClassOf(v[1]) == c) +
      Indicator(ClassOf(v[2]) == c) + Indicator(ClassOf(v[3]) == c)
  {
    assert Classes(v) == [ClassOf(v[0]), ClassOf(v[1]), ClassOf(v[2]), ClassOf(v[3])];
  }

  /** Two different voices of `v` hold pitch class `c`. */
  predicate Doubled(v: Voicing, c: PitchClass)
  {
    exists i, j :: 0 <= i < j < 4 && ClassOf(v[i]) == c && ClassOf(v[j]) == c
  }

  /**
   * chordCost: a penalty of 1 for a root-position voicing whose root is
   * not doubled, nothing otherwise.
   */
  function ChordCost(an: Analysis, v: Voicing): (c: nat)
    ensures c <= 1
    ensures c == 1 <==> an.inversion(v) == 0 && !Doubled(v, an.root(v))
  {
    ClassMultiplicity(v, an.root(v));
    if an.inversion(v) == 0 && multiset(Classes(v))[an.root(v)] <= 1 then 1 else 0
  }

  // ----- progressionCost, term by term -----

  /** One of the six voice-overlap conditions between consecutive voicings. */
  predicate Crossed(v1: Voicing, v2: Voicing)
  {
    || v2[0] > v1[1] || v2[1] < v1[0]
    || v2[1] > v1[2] || v2[2] < v1[1]
    || v2[2] > v1[3] || v2[3] < v1[2]
  }

  function CrossingTerm(v1: Voicing, v2: Voicing): nat
  {
    if Crossed(v1, v2) then 40 else 0
  }

  /** The distance each voice moves. */
  function Moves(v1: Voicing, v2: Voicing): (d: seq<nat>)
    ensures |d| == 4 && forall k :: 0 <= k < 4 ==> d[k] == Abs(v1[k] - v2[k])
  {
    seq(4, k requires 0 <= k < 4 => Abs(v1[k] - v2[k]))
  }

  function SopranoLeapCost(d: nat): nat
  {
    if d != 0 then (d / 3) * (d / 3) else 1
  }

  function InnerLeapCost(d: nat): nat
  {
    d * d / 3
  }

  function BassLeapCost(d: nat): nat
  {
    if d != 12 then d * d / 50 else 0
  }

  function LeapTerm(v1: Voicing, v2: Voicing): nat
  {
    var d := Moves(v1, v2);
    SopranoLeapCost(d[3]) + InnerLeapCost(d[2]) + InnerLeapCost(d[1]) + BassLeapCost(d[0])
  }

  /**
   * The motion cost of voices i < j: nothing if neither moves; otherwise
   * 60 for parallel fifths, 100 for parallel octaves or unisons, and for
   * bass and soprano 2 for similar motion.
   */
  function PairTerm(v1: Voicing, v2: Voicing, i: nat, j: nat): nat
    requires i < j < 4
  {
    var t1, t2, b1, b2 := v1[j], v2[j], v1[i], v2[i];
    if t1 == t2 && b1 == b2 then 0
    else
      var i1, i2 := t1 - b1, t2 - b2;
      (if i1 % 12 == 7 && i2 % 12 == 7 then 60 else 0) +
      (if i1 % 12 == 0 && i2 % 12 == 0 then 100 else 0) +
      (if i == 0 && j == 3 && ((t2 > t1 && b2 > b1) || (t2 < t1 && b2 < b1)) then 2 else 0)
  }

  /** The pair costs of voice i with the voices i+1 .. j-1. */
  function RowPrefix(v1: Voicing, v2: Voicing, i: nat, j: nat): nat
    requires i < j <= 4
    decreases j
  {
    if j == i + 1 then 0 else RowPrefix(v1, v2, i, j - 1) + PairTerm(v1, v2, i, j - 1)
  }

  /** The pair costs of every voice below i with every voice above it. */
  function MotionPrefix(v1: Voicing, v2: Voicing, i: nat): nat
    requires i <= 4
  {
    if i == 0 then 0 else MotionPrefix(v1, v2, i - 1) + RowPrefix(v1, v2, i - 1, 4)
  }

  function MotionTerm(v1: Voicing, v2: Voicing): nat
  {
    MotionPrefix(v1, v2, 4)
  }

  /** 100 if the first voice holding the chordal seventh of `v1` moves up or down by more than 2. */
  function SeventhTerm(an: Analysis, v1: Voicing, v2: Voicing): nat
  {
    match an.seventh(v1)
    case None => 0
    case Some(c) =>
      match FirstVoiceOf(v1, c)
      case None => 0
      case Some(k) =>
        var delta := v2[k] - v1[k];
        if delta < -2 || delta > 0 then 100 else 0
  }

  /** A move from a chord on the dominant or leading tone to one on the tonic or submediant. */
  predicate DominantToTonic(key: KeyContext, an: Analysis, v1: Voicing, v2: Voicing)
  {
    && (an.root(v1) == key.dominant || an.root(v1) == key.leadingTone)
    && (an.root(v2) == key.tonic || an.root(v2) == key.submediant)
  }

  /**
   * 100 on such a move if the first voice holding the leading tone neither
   * rises a semitone nor, as alto or tenor, falls a major third.
   */
  function LeadingToneTerm(key: KeyContext, an: Analysis, v1: Voicing, v2: Voicing): nat
  {
    if !DominantToTonic(key, an, v1, v2) then 0
    else
      match FirstVoiceOf(v1, key.leadingTone)
      case None => 0
      case Some(k) =>
        var delta := v2[k] - v1[k];
        if !(delta == 1 || (delta == -4 && 1 <= k <= 2)) then 100 else 0
  }

  /** The cost progressionCost assigns to the move from `v1` to `v2`. */
  function TransitionCost(key: KeyContext, an: Analysis, v1: Voicing, v2: Voicing): nat
  {
    CrossingTerm(v1, v2) + LeapTerm(v1, v2) + MotionTerm(v1, v2) +
    SeventhTerm(an, v1, v2) + LeadingToneTerm(key, an, v1, v2)
  }

  /** The big-jump part of progressionCost: one quadratic penalty per voice. */
  method LeapCost(chord1: Voicing, chord2: Voicing) returns (cost: nat)
    ensures cost == LeapTerm(chord1, chord2)
  {
    var diff := seq(4, k requires 0 <= k < 4 => Abs(chord1[k] - chord2[k]));
    cost := if diff[3] != 0 then (diff[3] / 3) * (diff[3] / 3) else 1;
    cost := cost + diff[2] * diff[2] / 3;
    cost := cost + diff[1] * diff[1] / 3;
    cost := cost + if diff[0] != 12 then diff[0] * diff[0] / 50 else 0;
    assert diff == Moves(chord1, chord2);
  }

  /**
   * The parallel-motion part of progressionCost: a nested loop over every
   * pair of voices, lower voice first.
   */
  method MotionCost(chord1: Voicing, chord2: Voicing) returns (cost: nat)
    ensures cost == MotionTerm(chord1, chord2)
  {
    cost := 0;
    var i := 0;
    while i < 4
      invariant 0 <= i <= 4
      invariant cost == MotionPrefix(chord1, chord2, i)
    {
      var j := i + 1;
      while j < 4
        invariant i + 1 <= j <= 4
        invariant cost == MotionPrefix(chord1, chord2, i) + RowPrefix(chord1, chord2, i, j)
      {
        ghost var before := cost;
        var t1, t2 := chord1[j], chord2[j];
        var b1, b2 := chord1[i], chord2[i];
        if !(t1 == t2 && b1 == b2) {
          var i1, i2 := t1 - b1, t2 - b2;
          if i1 % 12 == 7 && i2 % 12 == 7 {
            cost := cost + 60;
          }
          if i1 % 12 == 0 && i2 % 12 == 0 {
            cost := cost + 100;
          }
          if i == 0 && j == 3 {
            if (t2 > t1 && b2 > b1) || (t2 < t1 && b2 < b1) {
              cost := cost + 2;
            }
          }
        }
        assert cost == before + PairTerm(chord1, chord2, i, j);
        j := j + 1;
      }
      i := i + 1;
    }
  }

  /**
   * progressionCost: accumulates the crossing, leap, motion, seventh and
   * leading-tone terms, visiting the voice pairs in a nested loop.
   */
  method ProgressionCost(key: KeyContext, an: Analysis, chord1: Voicing, chord2: Voicing) returns (cost: nat)
    ensures cost == TransitionCost(key, an, chord1, chord2)
  {
    cost := 0;

    // overlapping voices
    if || chord2[0] > chord1[1] || chord2[1] < chord1[0]
       || chord2[1] > chord1[2] || chord2[2] < chord1[1]
       || chord2[2] > chord1[3] || chord2[3] < chord1[2]
    {
      cost := cost + 40;
    }
    assert cost == CrossingTerm(chord1, chord2);

    var leaps := LeapCost(chord1, chord2);
    cost := cost + leaps;
    var motion := MotionCost(chord1, chord2);
    cost := cost + motion;

    // the chordal seventh resolves down or stays
    var seventh := an.seventh(chord1);
    if seventh.Some? {
      var voice := FirstVoiceOf(chord1, seventh.value);
      if voice.Some? {
        var delta := chord2[voice.value] - chord1[voice.value];
        if delta < -2 || delta > 0 {
          cost := cost + 100;
        }
      }
    }
    assert cost == CrossingTerm(chord1, chord2) + LeapTerm(chord1, chord2) + MotionTerm(chord1, chord2)
                 + SeventhTerm(an, chord1, chord2);

    // V -> I means ti -> do, or ti -> sol in an inner voice
    var lt := key.leadingTone;
    if && (an.root(chord1) == key.dominant || an.root(chord1) == lt)
       && (an.root(chord2) == key.tonic || an.root(chord2) == key.submediant)
       && lt in Classes(chord1)
    {
      var voice := FirstVoiceOf(chord1, lt).value;
      var delta := chord2[voice] - chord1[voice];
      if !(delta == 1 || (delta == -4 && voice >= 1 && voice <= 2)) {
        cost := cost + 100;
      }
    }
  }

  // ----- properties of the cost terms -----

  /**
   * The crossing penalty is a single 40, charged exactly when some voice
   * moves above where its upper neighbour was, or below where its lower
   * neighbour was.
   */
  lemma CrossingPenalty(v1: Voicing, v2: Voicing)
    ensures CrossingTerm(v1, v2) == 40 || CrossingTerm(v1, v2) == 0
    ensures CrossingTerm(v1, v2) == 40 <==>
      exists k :: 0 <= k < 3 && (v2[k] > v1[k + 1] || v2[k + 1] < v1[k])
  {
    if Crossed(v1, v2) {
      if v2[0] > v1[1] || v2[1] < v1[0] {
        assert 0 < 3 && (v2[0] > v1[0 + 1] || v2[0 + 1] < v1[0]);
      } else if v2[1] > v1[2] || v2[2] < v1[1] {
        assert 1 < 3 && (v2[1] > v1[1 + 1] || v2[1 + 1] < v1[1]);
      } else {
        assert 2 < 3 && (v2[2] > v1[2 + 1] || v2[2 + 1] < v1[2]);
      }
    }
  }

  lemma SquareAtLeast(d: nat, m: nat)
    requires m <= d
    ensures m * m <= d * d
  {
    assert m * m <= m * d <= d * d;
  }

  /** A soprano leap is free exactly for a step of one or two semitones. */
  lemma SopranoLeapFree(d: nat)
    ensures SopranoLeapCost(d) == 0 <==> 1 <= d <= 2
    ensures d == 0 ==> SopranoLeapCost(d) == 1
  {
    if d >= 3 {
      assert d / 3 >= 1;
      SquareAtLeast(d / 3, 1);
    }
  }

  /** An alto or tenor move is free exactly when it is at most a semitone. */
  lemma InnerLeapFree(d: nat)
    ensures InnerLeapCost(d) == 0 <==> d <= 1
  {
    if d >= 2 {
      SquareAtLeast(d, 2);
    }
  }

  /** A bass move is free exactly when it is at most a fifth (7 semitones) or an octave exactly. */
  lemma BassLeapFree(d: nat)
    ensures BassLeapCost(d) == 0 <==> d <= 7 || d == 12
  {
    if d >= 8 {
      SquareAtLeast(d, 8);
    } else {
      SquareAtLeast(7, d);
    }
  }

  /**
   * The leap terms cost nothing exactly when the soprano steps by one or
   * two semitones, alto and tenor move at most a semitone and the bass at
   * most a fifth or by an octave.
   */
  lemma LeapFree(v1: Voicing, v2: Voicing)
    ensures LeapTerm(v1, v2) == 0 <==>
      var d := Moves(v1, v2);
      1 <= d[3] <= 2 && d[2] <= 1 && d[1] <= 1 && (d[0] <= 7 || d[0] == 12)
  {
    var d := Moves(v1, v2);
    SopranoLeapFree(d[3]);
    InnerLeapFree(d[2]);
    InnerLeapFree(d[1]);
    BassLeapFree(d[0]);
  }

  /** The motion term is the sum of the terms of the six voice pairs. */
  lemma MotionTermSixPairs(v1: Voicing, v2: Voicing)
    ensures MotionTerm(v1, v2) ==
      PairTerm(v1, v2, 0, 1) + PairTerm(v1, v2, 0, 2) + PairTerm(v1, v2, 0, 3) +
      PairTerm(v1, v2, 1, 2) + PairTerm(v1, v2, 1, 3) + PairTerm(v1, v2, 2, 3)
  {
    assert RowPrefix(v1, v2, 0, 4) == PairTerm(v1, v2, 0, 1) + PairTerm(v1, v2, 0, 2) + PairTerm(v1, v2, 0, 3) by {
      assert RowPrefix(v1, v2, 0, 2) == PairTerm(v1, v2, 0, 1);
    }
    assert RowPrefix(v1, v2, 1, 4) == PairTerm(v1, v2, 1, 2) + PairTerm(v1, v2, 1, 3) by {
      assert RowPrefix(v1, v2, 1, 3) == PairTerm(v1, v2, 1, 2);
    }
    assert RowPrefix(v1, v2, 2, 4) == PairTerm(v1, v2, 2, 3);
    assert RowPrefix(v1, v2, 3, 4) == 0;
    assert MotionPrefix(v1, v2, 1) == RowPrefix(v1, v2, 0, 4);
    assert MotionPrefix(v1, v2, 2) == MotionPrefix(v1, v2, 1) + RowPrefix(v1, v2, 1, 4);
    assert MotionPrefix(v1, v2, 3) == MotionPrefix(v1, v2, 2) + RowPrefix(v1, v2, 2, 4);
    assert MotionPrefix(v1, v2, 4) == MotionPrefix(v1, v2, 3) + RowPrefix(v1, v2, 3, 4);
  }

  /** Parallel fifths between two moving voices cost at least 60. */
  lemma ParallelFifthsPenalized(key: KeyContext, an: Analysis, v1: Voicing, v2: Voicing, i: nat, j: nat)
    requires i < j < 4 && !(v1[i] == v2[i] && v1[j] == v2[j])
    requires (v1[j] - v1[i]) % 12 == 7 && (v2[j] - v2[i]) % 12 == 7
    ensures TransitionCost(key, an, v1, v2) >= 60
  {
    MotionTermSixPairs(v1, v2);
    assert PairTerm(v1, v2, i, j) >= 60;
  }

  /** Parallel octaves or unisons between two moving voices cost at least 100. */
  lemma ParallelOctavesPenalized(key: KeyContext, an: Analysis, v1: Voicing, v2: Voicing, i: nat, j: nat)
    requires i < j < 4 && !(v1[i] == v2[i] && v1[j] == v2[j])
    requires (v1[j] - v1[i]) % 12 == 0 && (v2[j] - v2[i]) % 12 == 0
    ensures TransitionCost(key, an, v1, v2) >= 100
  {
    MotionTermSixPairs(v1, v2);
    assert PairTerm(v1, v2, i, j) >= 100;
  }

  /**
   * Unless they form parallel fifths or octaves, bass and soprano cost 2
   * for moving in the same direction and nothing for contrary or oblique motion.
   */
  lemma OuterVoiceMotion(v1: Voicing, v2: Voicing)
    requires !((v1[3] - v1[0]) % 12 == 7 && (v2[3] - v2[0]) % 12 == 7)
    requires !((v1[3] - v1[0]) % 12 == 0 && (v2[3] - v2[0]) % 12 == 0)
    ensures PairTerm(v1, v2, 0, 3) ==
      if (v2[3] > v1[3] && v2[0] > v1[0]) || (v2[3] < v1[3] && v2[0] < v1[0]) then 2 else 0
  {
  }

  /**
   * Holding an ordered voicing still costs 1 (the static soprano), plus the
   * leading-tone penalty when one analysed root counts both as dominant or
   * leading tone and as tonic or submediant, which no key with four
   * distinct degrees allows (see HeldChordCostInKey).
   */
  lemma HeldChordCost(key: KeyContext, an: Analysis, v: Voicing)
    requires v[0] <= v[1] <= v[2] <= v[3]
    ensures TransitionCost(key, an, v, v) ==
      1 + 100 * Indicator(DominantToTonic(key, an, v, v) && key.leadingTone in Classes(v))
  {
    MotionTermSixPairs(v, v);
    assert Moves(v, v) == [0, 0, 0, 0];
  }

  /** In a key whose degrees 1, 5, 6 and leading tone differ, holding an ordered voicing costs exactly 1. */
  lemma HeldChordCostInKey(key: KeyContext, an: Analysis, v: Voicing)
    requires v[0] <= v[1] <= v[2] <= v[3]
    requires key.dominant != key.tonic && key.dominant != key.submediant
    requires key.leadingTone != key.tonic && key.leadingTone != key.submediant
    ensures TransitionCost(key, an, v, v) == 1
  {
    HeldChordCost(key, an, v);
  }

  /**
   * On a dominant-to-tonic move the leading tone must rise a semitone, or,
   * in the alto or tenor, fall to the fifth; otherwise the move costs 100.
   */
  lemma LeadingToneResolution(key: KeyContext, an: Analysis, v1: Voicing, v2: Voicing, k: nat)
    requires DominantToTonic(key, an, v1, v2) && FirstVoiceOf(v1, key.leadingTone) == Some(k)
    ensures LeadingToneTerm(key, an, v1, v2) == 0 <==>
      v2[k] == v1[k] + 1 || (v2[k] == v1[k] - 4 && (k == 1 || k == 2))
    ensures LeadingToneTerm(key, an, v1, v2) == 0 || LeadingToneTerm(key, an, v1, v2) == 100
  {
  }

  /** The chordal seventh must fall by one or two semitones or stay; otherwise the move costs 100. */
  lemma SeventhResolution(an: Analysis, v1: Voicing, v2: Voicing, c: PitchClass, k: nat)
    requires an.seventh(v1) == Some(c) && FirstVoiceOf(v1, c) == Some(k)
    ensures SeventhTerm(an, v1, v2) == 0 <==> v1[k] - 2 <= v2[k] <= v1[k]
    ensures SeventhTerm(an, v1, v2) == 0 || SeventhTerm(an, v1, v2) == 100
  {
  }
}
