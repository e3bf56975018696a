/**
 * The triad voicer (_voiceTriadUnordered): every placement of three note
 * names in tenor, alto and soprano, each voice in its range, the alto at
 * most an octave below the soprano and not above it, the tenor likewise
 * under the alto. A triad voicing is the sequence [tenor, alto, soprano].
 */
module Triads {
  import opened Pitches

  function Max(a: int, b: int): int
  {
    if a >= b then a else b
  }

  function Min(a: int, b: int): int
  {
    if a <= b then a else b
  }

  /** Where the alto may lie under soprano pitch `s`. */
  function AltoWindow(rg: Ranges, s: Pitch): Range
  {
    Range(Max(rg.alto.lo, s - 12), Min(rg.alto.hi, s))
  }

  /** Where the tenor may lie under alto pitch `a`. */
  function TenorWindow(rg: Ranges, a: Pitch): Range
  {
    Range(Max(rg.tenor.lo, a - 12), Min(rg.tenor.hi, a))
  }

  /** The voicings [t, a, s] for each tenor pitch t in `ts`, in order. */
  function WithTenors(ts: seq<Pitch>, a: Pitch, s: Pitch): (vs: seq<seq<Pitch>>)
    ensures forall v :: v in vs <==> |v| == 3 && v[0] in ts && v[1] == a && v[2] == s
  {
    var vs := seq(|ts|, k requires 0 <= k < |ts| => [ts[k], a, s]);
    assert forall v :: v in vs ==> |v| == 3 && v[0] in ts && v[1] == a && v[2] == s;
    assert forall v :: |v| == 3 && v[0] in ts && v[1] == a && v[2] == s ==> v in vs by {
      forall v | |v| == 3 && v[0] in ts && v[1] == a && v[2] == s ensures v in vs {
        var k :| 0 <= k < |ts| && ts[k] == v[0];
        assert vs[k] == v;
      }
    }
    vs
  }

  /** The alto loop under soprano pitch `s`: for each alto pitch, every tenor of class `tc`. */
  function OverAltos(altos: seq<Pitch>, tc: PitchClass, s: Pitch, rg: Ranges): (vs: seq<seq<Pitch>>)
    ensures forall v :: v in vs <==>
      |v| == 3 && v[2] == s && v[1] in altos &&
      TenorWindow(rg, v[1]).Contains(v[0]) && ClassOf(v[0]) == tc
  {
    if altos == [] then []
    else
      WithTenors(VoiceNote(tc, TenorWindow(rg, altos[0])), altos[0], s) + OverAltos(altos[1..], tc, s, rg)
  }

  /** The soprano loop: for each soprano pitch, every alto of class `ac` and tenor of class `tc`. */
  function OverSopranos(sopranos: seq<Pitch>, tc: PitchClass, ac: PitchClass, rg: Ranges): (vs: seq<seq<Pitch>>)
    ensures forall v :: v in vs <==>
      |v| == 3 && v[2] in sopranos &&
      AltoWindow(rg, v[2]).Contains(v[1]) && ClassOf(v[1]) == ac &&
      TenorWindow(rg, v[1]).Contains(v[0]) && ClassOf(v[0]) == tc
  {
    if sopranos == [] then []
    else
      OverAltos(VoiceNote(ac, AltoWindow(rg, sopranos[0])), tc, sopranos[0], rg) +
      OverSopranos(sopranos[1..], tc, ac, rg)
  }

  /** Register and spacing: each voice in its range, t <= a <= s, adjacent voices within an octave. */
  predicate Spaced(v: seq<Pitch>, rg: Ranges)
  {
    && |v| == 3
    && rg.tenor.Contains(v[0]) && rg.alto.Contains(v[1]) && rg.soprano.Contains(v[2])
    && v[0] <= v[1] <= v[2]
    && v[2] - v[1] <= 12 && v[1] - v[0] <= 12
  }

  /** The window conditions of the three loops are exactly register and spacing. */
  lemma WindowsAreSpacing(v: seq<Pitch>, rg: Ranges)
    requires |v| == 3
    ensures Spaced(v, rg) <==>
      rg.soprano.Contains(v[2]) && AltoWindow(rg, v[2]).Contains(v[1]) && TenorWindow(rg, v[1]).Contains(v[0])
  {
  }

  /** The voicings with tenor class `tc`, alto class `ac`, soprano class `sc`. */
  function Placements(tc: PitchClass, ac: PitchClass, sc: PitchClass, rg: Ranges): (vs: seq<seq<Pitch>>)
    ensures forall v :: v in vs <==>
      Spaced(v, rg) && ClassOf(v[0]) == tc && ClassOf(v[1]) == ac && ClassOf(v[2]) == sc
  {
    var vs := OverSopranos(VoiceNote(sc, rg.soprano), tc, ac, rg);
    assert forall v :: |v| == 3 ==> (Spaced(v, rg) <==>
      rg.soprano.Contains(v[2]) && AltoWindow(rg, v[2]).Contains(v[1]) && TenorWindow(rg, v[1]).Contains(v[0])) by {
      forall v | |v| == 3 ensures Spaced(v, rg) <==>
        rg.soprano.Contains(v[2]) && AltoWindow(rg, v[2]).Contains(v[1]) && TenorWindow(rg, v[1]).Contains(v[0]) {
        WindowsAreSpacing(v, rg);
      }
    }
    vs
  }

  /** (a, b, c) is one of the six orders of (x, y, z), listed as itertools.permutations lists them. */
  predicate Arranged(a: PitchClass, b: PitchClass, c: PitchClass, x: PitchClass, y: PitchClass, z: PitchClass)
  {
    || (a == x && b == y && c == z) || (a == x && b == z && c == y)
    || (a == y && b == x && c == z) || (a == y && b == z && c == x)
    || (a == z && b == x && c == y) || (a == z && b == y && c == x)
  }


  lemma TwoOfSameMultiset(a: PitchClass, b: PitchClass, x: PitchClass, y: PitchClass)
    requires multiset{a, b} == multiset{x, y}
    ensures (a == x && b == y) || (a == y && b == x)
  {
    assert multiset{x, y}[a] == Indicator(a == x) + Indicator(a == y);
    assert multiset{a, b}[a] >= 1;
    if a == x {
      assert multiset{x, y}[b] == Indicator(b == x) + Indicator(b == y);
    }
  }

  lemma CancelOne(a: PitchClass, b: PitchClass, c: PitchClass, y: PitchClass, z: PitchClass)
    requires multiset{a, b, c} == multiset{a, y, z}
    ensures multiset{b, c} == multiset{y, z}
  {
    forall e ensures multiset{b, c}[e] == multiset{y, z}[e] {
      assert multiset{a, b, c}[e] == Indicator(a == e) + multiset{b, c}[e];
      assert multiset{a, y, z}[e] == Indicator(a == e) + multiset{y, z}[e];
    }
  }

  /** Three pitch classes arranged in any order have the same multiset. */
  lemma ArrangedIsSameMultiset(a: PitchClass, b: PitchClass, c: PitchClass, x: PitchClass, y: PitchClass, z: PitchClass)
    requires Arranged(a, b, c, x, y, z)
    ensures multiset{a, b, c} == multiset{x, y, z}
  {
    forall e ensures multiset{a, b, c}[e] == multiset{x, y, z}[e] {
      ThreeCount(a, b, c, e);
      ThreeCount(x, y, z, e);
    }
  }

  lemma ThreeCount(a: PitchClass, b: PitchClass, c: PitchClass, e: PitchClass)
    ensures multiset{a, b, c}[e] == Indicator(a == e) + Indicator(b == e) + Indicator(c == e)
  {
  }

  /** Three pitch classes have the multiset of three others exactly when they are an arrangement of them. */
  lemma SameMultisetIsArranged(a: PitchClass, b: PitchClass, c: PitchClass, x: PitchClass, y: PitchClass, z: PitchClass)
    ensures multiset{a, b, c} == multiset{x, y, z} <==> Arranged(a, b, c, x, y, z)
  {
    if Arranged(a, b, c, x, y, z) {
      ArrangedIsSameMultiset(a, b, c, x, y, z);
    } else {
      SameMultisetArranged(a, b, c, x, y, z);
    }
  }

  lemma SameMultisetArranged(a: PitchClass, b: PitchClass, c: PitchClass, x: PitchClass, y: PitchClass, z: PitchClass)
    ensures multiset{a, b, c} == multiset{x, y, z} ==> Arranged(a, b, c, x, y, z)
  {
    if multiset{a, b, c} == multiset{x, y, z} {
      assert multiset{x, y, z}[a] == Indicator(a == x) + Indicator(a == y) + Indicator(a == z);
      assert multiset{a, b, c}[a] >= 1;
      if a == x {
        CancelOne(a, b, c, y, z);
        TwoOfSameMultiset(b, c, y, z);
      } else if a == y {
        assert multiset{x, y, z} == multiset{y, x, z};
        CancelOne(a, b, c, x, z);
        TwoOfSameMultiset(b, c, x, z);
      } else {
        assert multiset{x, y, z} == multiset{z, x, y};
        CancelOne(a, b, c, x, y);
        TwoOfSameMultiset(b, c, x, y);
      }
    }
  }

  /**
   * _voiceTriadUnordered: for each order of the three names over
   * (tenor, alto, soprano), as itertools.permutations lists them, every
   * placement of that order.
   */
  function VoiceTriad(names: seq<PitchClass>, rg: Ranges): (vs: seq<seq<Pitch>>)
    requires |names| == 3
  {
    var x, y, z := names[0], names[1], names[2];
    Placements(x, y, z, rg) + Placements(x, z, y, rg) + Placements(y, x, z, rg) +
    Placements(y, z, x, rg) + Placements(z, x, y, rg) + Placements(z, y, x, rg)
  }

  /** A legal triad voicing of `names`: spaced, and its classes a permutation of the names. */
  predicate TriadVoicing(v: seq<Pitch>, names: seq<PitchClass>, rg: Ranges)
  {
    Spaced(v, rg) && multiset(Classes(v)) == multiset(names)
  }

  /** The triad voicer yields exactly the legal triad voicings of its three names. */
  lemma VoiceTriadExact(names: seq<PitchClass>, rg: Ranges)
    requires |names| == 3
    ensures forall v :: v in VoiceTriad(names, rg) <==> TriadVoicing(v, names, rg)
  {
    assert names == [names[0], names[1], names[2]];
    forall v ensures v in VoiceTriad(names, rg) <==> TriadVoicing(v, names, rg) {
      if |v| == 3 {
        assert Classes(v) == [ClassOf(v[0]), ClassOf(v[1]), ClassOf(v[2])];
        SameMultisetIsArranged(ClassOf(v[0]), ClassOf(v[1]), ClassOf(v[2]), names[0], names[1], names[2]);
      }
    }
  }
}
