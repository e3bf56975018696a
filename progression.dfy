/**
 * The progression optimiser (voiceProgression): an exact dynamic program
 * over the candidate voicings of every position, with backpointers, that
 * returns the cheapest sequence of voicings and its total cost.
 *
 * The specification functions below describe what the tables hold: Best is
 * the cheapest cost of reaching a voicing, Pred the predecessor the table
 * records for it (the first cheapest, in key order), Final the voicing
 * chosen at the last position, and Reconstruct the path read back along
 * the backpointers.
 */
module Progression {
  import opened Wrappers
  import opened Pitches
  import opened Theory
  import opened Costs
  import opened Chords

  /** A DP table entry: the cheapest cost of reaching a voicing and the predecessor it came from. */
  datatype Cell = Cell(cost: nat, pred: Option<Voicing>)

  /**
   * The weights the dynamic program minimises: a cost per voicing and a
   * cost per pair of neighbouring voicings.
   */
  datatype Weights = Weights(node: Voicing -> nat, edge: (Voicing, Voicing) -> nat)

  /** voiceProgression's weights: chordCost per voicing and progressionCost per step. */
  function CostsOf(key: KeyContext, an: Analysis): (w: Weights)
    ensures forall v :: w.node(v) == ChordCost(an, v)
    ensures forall u, v :: w.edge(u, v) == TransitionCost(key, an, u, v)
  {
    Weights(v => ChordCost(an, v), (u, v) => TransitionCost(key, an, u, v))
  }

  /** Why a progression cannot be voiced. */
  datatype Failure = EmptyProgression | NoVoicings(position: nat)

  /** One voicing per position and the total cost of the sequence. */
  datatype Solution = Solution(chords: seq<Voicing>, cost: nat)

  /**
   * The distinct voicings of `s` in order of first occurrence: the key order
   * of a dictionary filled from `s`, where a repeated key keeps its place.
   */
  function Dedup(s: seq<Voicing>): (d: seq<Voicing>)
    ensures forall x :: x in d <==> x in s
    ensures |s| > 0 ==> |d| > 0
  {
    if s == [] then []
    else
      var init := s[..|s| - 1];
      var d := Dedup(init);
      assert s == init + [s[|s| - 1]];
      if s[|s| - 1] in d then d else d + [s[|s| - 1]]
  }

  /** A dictionary's keys are distinct. */
  lemma {:induction false} DedupDistinct(s: seq<Voicing>)
    ensures forall i, j :: 0 <= i < j < |Dedup(s)| ==> Dedup(s)[i] != Dedup(s)[j]
  {
    if s != [] {
      var init := s[..|s| - 1];
      var x := s[|s| - 1];
      DedupDistinct(init);
      var d0 := Dedup(init);
      var d := Dedup(s);
      if x !in d0 {
        assert d == d0 + [x];
        forall i, j | 0 <= i < j < |d| ensures d[i] != d[j] {
          assert d[i] == d0[i];
          if j == |d0| {
            assert d[j] == x;
            assert d0[i] in d0;
          } else {
            assert d[j] == d0[j];
            assert d0[i] != d0[j];
          }
        }
      } else {
        assert d == d0;
      }
    }
  }

  /** Every position has at least one candidate voicing. */
  predicate Voiced(cands: seq<seq<Voicing>>)
  {
    forall k :: 0 <= k < |cands| ==> |cands[k]| > 0
  }

  /** The cost of reaching `v` at position i from `u` at position i - 1. */
  function Arrival(w: Weights, cands: seq<seq<Voicing>>, i: nat, u: Voicing, v: Voicing): nat
    requires Voiced(cands) && 0 < i < |cands|
    decreases i, 0, 0
  {
    Best(w, cands, i - 1, u) + w.edge(u, v)
  }

  /** The cost of reaching `v` at position i from the j-th key of position i - 1. */
  function ArrivalFrom(w: Weights, cands: seq<seq<Voicing>>, i: nat, v: Voicing, j: nat): nat
    requires Voiced(cands) && 0 < i < |cands| && j < |Dedup(cands[i - 1])|
    decreases i, 0, 1
  {
    Arrival(w, cands, i, Dedup(cands[i - 1])[j], v)
  }

  /**
   * Among the first k keys of position i - 1, the index of the first
   * cheapest predecessor of `v`: the predecessor loop replaces its best only
   * on a strictly smaller cost.
   */
  function FirstCheapest(w: Weights, cands: seq<seq<Voicing>>, i: nat, v: Voicing, k: nat): (m: nat)
    requires Voiced(cands) && 0 < i < |cands| && 0 < k <= |Dedup(cands[i - 1])|
    ensures m < k
    decreases i, 1, k
  {
    if k == 1 then 0
    else
      var m := FirstCheapest(w, cands, i, v, k - 1);
      if ArrivalFrom(w, cands, i, v, k - 1) < ArrivalFrom(w, cands, i, v, m) then k - 1 else m
  }

  /** The chosen predecessor is a cheapest one, and every earlier key is strictly dearer. */
  lemma {:induction false} FirstCheapestIsFirstMinimum(w: Weights, cands: seq<seq<Voicing>>, i: nat, v: Voicing, k: nat)
    requires Voiced(cands) && 0 < i < |cands| && 0 < k <= |Dedup(cands[i - 1])|
    ensures forall j :: 0 <= j < k ==>
      ArrivalFrom(w, cands, i, v, FirstCheapest(w, cands, i, v, k)) <= ArrivalFrom(w, cands, i, v, j)
    ensures forall j :: 0 <= j < FirstCheapest(w, cands, i, v, k) ==>
      ArrivalFrom(w, cands, i, v, FirstCheapest(w, cands, i, v, k)) < ArrivalFrom(w, cands, i, v, j)
  {
    if k > 1 {
      FirstCheapestIsFirstMinimum(w, cands, i, v, k - 1);
    }
  }

  /** One more key: the first cheapest of k + 1 keys is the new key exactly when it is strictly cheaper. */
  lemma FirstCheapestNext(w: Weights, cands: seq<seq<Voicing>>, i: nat, v: Voicing, k: nat)
    requires Voiced(cands) && 0 < i < |cands| && k < |Dedup(cands[i - 1])|
    ensures k == 0 ==> FirstCheapest(w, cands, i, v, 1) == 0
    ensures k > 0 ==>
      var m := FirstCheapest(w, cands, i, v, k);
      FirstCheapest(w, cands, i, v, k + 1)
        == if ArrivalFrom(w, cands, i, v, k) < ArrivalFrom(w, cands, i, v, m) then k else m
  {
  }

  /** The predecessor the table records for `v` at position i > 0. */
  function Pred(w: Weights, cands: seq<seq<Voicing>>, i: nat, v: Voicing): Voicing
    requires Voiced(cands) && 0 < i < |cands|
    decreases i, 2, 0
  {
    var ps := Dedup(cands[i - 1]);
    ps[FirstCheapest(w, cands, i, v, |ps|)]
  }

  /** The cost the table records for `v` at position i. */
  function Best(w: Weights, cands: seq<seq<Voicing>>, i: nat, v: Voicing): nat
    requires Voiced(cands) && i < |cands|
    decreases i, 3, 0
  {
    if i == 0 then w.node(v)
    else Arrival(w, cands, i, Pred(w, cands, i, v), v) + w.node(v)
  }

  /** The table entry for `v` at position i. */
  function CellFor(w: Weights, cands: seq<seq<Voicing>>, i: nat, v: Voicing): Cell
    requires Voiced(cands) && i < |cands|
  {
    Cell(Best(w, cands, i, v), if i == 0 then None else Some(Pred(w, cands, i, v)))
  }

  /** The recorded cost of the j-th key of the last position. */
  function FinalCost(w: Weights, cands: seq<seq<Voicing>>, j: nat): nat
    requires Voiced(cands) && |cands| > 0 && j < |Dedup(cands[|cands| - 1])|
  {
    Best(w, cands, |cands| - 1, Dedup(cands[|cands| - 1])[j])
  }

  /**
   * Among the first k keys of the last position, the index of the first
   * cheapest one, as min keeps the first of equal minima.
   */
  function FirstCheapestFinal(w: Weights, cands: seq<seq<Voicing>>, k: nat): (m: nat)
    requires Voiced(cands) && |cands| > 0 && 0 < k <= |Dedup(cands[|cands| - 1])|
    ensures m < k
  {
    if k == 1 then 0
    else
      var m := FirstCheapestFinal(w, cands, k - 1);
      if FinalCost(w, cands, k - 1) < FinalCost(w, cands, m) then k - 1 else m
  }

  /** The chosen final voicing is a cheapest one, and every earlier key is strictly dearer. */
  lemma {:induction false} FirstCheapestFinalIsFirstMinimum(w: Weights, cands: seq<seq<Voicing>>, k: nat)
    requires Voiced(cands) && |cands| > 0 && 0 < k <= |Dedup(cands[|cands| - 1])|
    ensures forall j :: 0 <= j < k ==>
      FinalCost(w, cands, FirstCheapestFinal(w, cands, k)) <= FinalCost(w, cands, j)
    ensures forall j :: 0 <= j < FirstCheapestFinal(w, cands, k) ==>
      FinalCost(w, cands, FirstCheapestFinal(w, cands, k)) < FinalCost(w, cands, j)
  {
    if k > 1 {
      FirstCheapestFinalIsFirstMinimum(w, cands, k - 1);
    }
  }

  /** One more key: the first cheapest of k + 1 final keys is the new key exactly when it is strictly cheaper. */
  lemma FirstCheapestFinalNext(w: Weights, cands: seq<seq<Voicing>>, k: nat)
    requires Voiced(cands) && |cands| > 0 && 0 < k < |Dedup(cands[|cands| - 1])|
    ensures
      var m := FirstCheapestFinal(w, cands, k);
      FirstCheapestFinal(w, cands, k + 1)
        == if FinalCost(w, cands, k) < FinalCost(w, cands, m) then k else m
  {
  }

  /** The voicing chosen at the last position. */
  function Final(w: Weights, cands: seq<seq<Voicing>>): Voicing
    requires Voiced(cands) && |cands| > 0
  {
    var ps := Dedup(cands[|cands| - 1]);
    ps[FirstCheapestFinal(w, cands, |ps|)]
  }

  /** The path that ends in `v` at position i, read back along the backpointers. */
  function Reconstruct(w: Weights, cands: seq<seq<Voicing>>, i: nat, v: Voicing): (p: seq<Voicing>)
    requires Voiced(cands) && i < |cands|
    ensures |p| == i + 1 && p[i] == v
  {
    if i == 0 then [v]
    else Reconstruct(w, cands, i - 1, Pred(w, cands, i, v)) + [v]
  }

  /** The total cost of a sequence of voicings: each chordCost plus each progressionCost between neighbours. */
  function PathCost(w: Weights, p: seq<Voicing>): nat
    requires |p| > 0
  {
    if |p| == 1 then w.node(p[0])
    else
      PathCost(w, p[..|p| - 1]) + w.edge(p[|p| - 2], p[|p| - 1]) + w.node(p[|p| - 1])
  }

  /** `p` takes, at each of the first |p| positions, one of that position's candidates. */
  predicate Chosen(p: seq<Voicing>, cands: seq<seq<Voicing>>)
  {
    |p| <= |cands| && forall k :: 0 <= k < |p| ==> p[k] in cands[k]
  }

  /** `p` voices the whole progression from its candidates. */
  predicate IsChoice(p: seq<Voicing>, cands: seq<seq<Voicing>>)
  {
    |p| == |cands| && Chosen(p, cands)
  }

  /** The recorded predecessor is a candidate of the previous position. */
  lemma PredIsCandidate(w: Weights, cands: seq<seq<Voicing>>, i: nat, v: Voicing)
    requires Voiced(cands) && 0 < i < |cands|
    ensures Pred(w, cands, i, v) in cands[i - 1]
  {
    var ps := Dedup(cands[i - 1]);
    assert ps[FirstCheapest(w, cands, i, v, |ps|)] in ps;
  }

  /** Reading back from a candidate visits a candidate at every earlier position. */
  lemma {:induction false} ReconstructChosen(w: Weights, cands: seq<seq<Voicing>>, i: nat, v: Voicing)
    requires Voiced(cands) && i < |cands| && v in cands[i]
    ensures Chosen(Reconstruct(w, cands, i, v), cands)
  {
    if i > 0 {
      var u := Pred(w, cands, i, v);
      PredIsCandidate(w, cands, i, v);
      ReconstructChosen(w, cands, i - 1, u);
    }
  }

  /** Along a path read back, each voicing is the recorded predecessor of the next. */
  lemma {:induction false} ReconstructLink(w: Weights, cands: seq<seq<Voicing>>, i: nat, v: Voicing, k: nat)
    requires Voiced(cands) && i < |cands| && 0 < k <= i
    ensures Reconstruct(w, cands, i, v)[k - 1] == Pred(w, cands, k, Reconstruct(w, cands, i, v)[k])
  {
    var u := Pred(w, cands, i, v);
    var q := Reconstruct(w, cands, i - 1, u);
    var p := Reconstruct(w, cands, i, v);
    assert p == q + [v];
    if k < i {
      ReconstructLink(w, cands, i - 1, u, k);
      assert p[k - 1] == q[k - 1] && p[k] == q[k];
    } else {
      assert p[k] == v;
      assert p[k - 1] == q[i - 1] == u;
    }
  }

  /** The recorded cost of a voicing is the total cost of the path read back from it. */
  lemma {:induction false} BestIsPathCost(w: Weights, cands: seq<seq<Voicing>>, i: nat, v: Voicing)
    requires Voiced(cands) && i < |cands|
    ensures Best(w, cands, i, v) == PathCost(w, Reconstruct(w, cands, i, v))
  {
    if i > 0 {
      var u := Pred(w, cands, i, v);
      var p := Reconstruct(w, cands, i, v);
      BestIsPathCost(w, cands, i - 1, u);
      assert p[..i] == Reconstruct(w, cands, i - 1, u);
    }
  }

  /** No choice of candidates that ends in `v` at position i is cheaper than the recorded cost. */
  lemma {:induction false} BestIsMinimal(w: Weights, cands: seq<seq<Voicing>>, i: nat, v: Voicing, p: seq<Voicing>)
    requires Voiced(cands) && i < |cands|
    requires |p| == i + 1 && p[i] == v && Chosen(p[..i], cands)
    ensures Best(w, cands, i, v) <= PathCost(w, p)
  {
    if i > 0 {
      var u := p[i - 1];
      var init := p[..i];
      assert init[..i - 1] == p[..i - 1];
      assert Chosen(init[..i - 1], cands);
      BestIsMinimal(w, cands, i - 1, u, init);
      var ps := Dedup(cands[i - 1]);
      assert u in cands[i - 1];
      var j :| 0 <= j < |ps| && ps[j] == u;
      FirstCheapestIsFirstMinimum(w, cands, i, v, |ps|);
      assert ArrivalFrom(w, cands, i, v, FirstCheapest(w, cands, i, v, |ps|)) <= ArrivalFrom(w, cands, i, v, j);
    }
  }

  /**
   * The optimiser's answer: the path read back from the final choice voices
   * every position from its candidates, its total cost is the recorded cost,
   * and no choice of candidates costs less.
   */
  lemma Optimal(w: Weights, cands: seq<seq<Voicing>>)
    requires Voiced(cands) && |cands| > 0
    ensures IsChoice(Reconstruct(w, cands, |cands| - 1, Final(w, cands)), cands)
    ensures Best(w, cands, |cands| - 1, Final(w, cands)) == PathCost(w, Reconstruct(w, cands, |cands| - 1, Final(w, cands)))
    ensures forall p :: IsChoice(p, cands) ==> Best(w, cands, |cands| - 1, Final(w, cands)) <= PathCost(w, p)
  {
    var n := |cands| - 1;
    var f := Final(w, cands);
    var ps := Dedup(cands[n]);
    assert f in ps;
    ReconstructChosen(w, cands, n, f);
    BestIsPathCost(w, cands, n, f);
    forall p | IsChoice(p, cands) ensures Best(w, cands, n, f) <= PathCost(w, p) {
      assert p[n] in cands[n];
      var j :| 0 <= j < |ps| && ps[j] == p[n];
      FirstCheapestFinalIsFirstMinimum(w, cands, |ps|);
      assert FinalCost(w, cands, FirstCheapestFinal(w, cands, |ps|)) <= FinalCost(w, cands, j);
      assert Chosen(p[..n], cands);
      BestIsMinimal(w, cands, n, p[n], p);
    }
  }

  /** The reverse of a sequence. */
  function Reversed(s: seq<Voicing>): (r: seq<Voicing>)
    ensures |r| == |s|
  {
    if s == [] then [] else [s[|s| - 1]] + Reversed(s[..|s| - 1])
  }

  lemma ReversedSnoc(s: seq<Voicing>, x: Voicing)
    ensures Reversed(s + [x]) == [x] + Reversed(s)
  {
    assert (s + [x])[..|s|] == s;
  }

  /** The table of position i restricted to the voicings of `vs`: each holds its specified entry. */
  ghost function TableOf(w: Weights, cands: seq<seq<Voicing>>, i: nat, vs: seq<Voicing>): map<Voicing, Cell>
    requires Voiced(cands) && i < |cands|
  {
    map v | v in vs :: CellFor(w, cands, i, v)
  }

  /**
   * The predecessor loop for `v` at position i > 0: scans the previous
   * table in key order, keeping the first strictly cheapest arrival.
   */
  method Relax(key: KeyContext, an: Analysis, cands: seq<seq<Voicing>>, i: nat, v: Voicing,
               prev: map<Voicing, Cell>, prevKeys: seq<Voicing>) returns (cell: Cell)
    requires Voiced(cands) && 0 < i < |cands|
    requires prevKeys == Dedup(cands[i - 1]) && prev == TableOf(CostsOf(key, an), cands, i - 1, cands[i - 1])
    ensures cell == CellFor(CostsOf(key, an), cands, i, v)
  {
    ghost var w := CostsOf(key, an);
    var best: Option<(nat, Voicing)> := None;
    ghost var c: nat := 0;
    var m := 0;
    while m < |prevKeys|
      invariant 0 <= m <= |prevKeys|
      invariant m == 0 ==> best == None
      invariant m > 0 ==> c == FirstCheapest(w, cands, i, v, m)
      invariant m > 0 ==> c < |prevKeys| && best == Some((ArrivalFrom(w, cands, i, v, c), prevKeys[c]))
    {
      var u := prevKeys[m];
      assert u in cands[i - 1];
      var step := ProgressionCost(key, an, u, v);
      var ccost := prev[u].cost + step;
      assert ccost == ArrivalFrom(w, cands, i, v, m);
      FirstCheapestNext(w, cands, i, v, m);
      if best == None || ccost < best.value.0 {
        best := Some((ccost, u));
        c := m;
      }
      m := m + 1;
    }
    cell := Cell(best.value.0 + ChordCost(an, v), Some(best.value.1));
  }

  /** A dictionary filled from `s` and then `x` keeps its keys in place and adds `x` last if it is new. */
  lemma DedupSnoc(s: seq<Voicing>, x: Voicing)
    ensures Dedup(s + [x]) == if x in Dedup(s) then Dedup(s) else Dedup(s) + [x]
  {
    assert (s + [x])[..|s|] == s;
  }

  /** The restricted table over `vs` and then `v` is the one over `vs` with the entry of `v` set. */
  lemma TableOfSnoc(w: Weights, cands: seq<seq<Voicing>>, i: nat, vs: seq<Voicing>, v: Voicing)
    requires Voiced(cands) && i < |cands|
    ensures TableOf(w, cands, i, vs + [v]) == TableOf(w, cands, i, vs)[v := CellFor(w, cands, i, v)]
  {
  }

  /** Fills the table of position i, a key per distinct candidate in order of first occurrence. */
  method FillTable(key: KeyContext, an: Analysis, cands: seq<seq<Voicing>>, i: nat,
                   prev: map<Voicing, Cell>, prevKeys: seq<Voicing>) returns (table: map<Voicing, Cell>, keys: seq<Voicing>)
    requires Voiced(cands) && i < |cands|
    requires i > 0 ==> prevKeys == Dedup(cands[i - 1]) && prev == TableOf(CostsOf(key, an), cands, i - 1, cands[i - 1])
    ensures keys == Dedup(cands[i]) && table == TableOf(CostsOf(key, an), cands, i, cands[i])
  {
    ghost var w := CostsOf(key, an);
    table := map[];
    keys := [];
    var k := 0;
    while k < |cands[i]|
      invariant 0 <= k <= |cands[i]|
      invariant keys == Dedup(cands[i][..k])
      invariant table == TableOf(w, cands, i, cands[i][..k])
    {
      var v := cands[i][k];
      var cell: Cell;
      if i == 0 {
        cell := Cell(ChordCost(an, v), None);
      } else {
        cell := Relax(key, an, cands, i, v, prev, prevKeys);
      }
      ghost var seen := cands[i][..k];
      assert cands[i][..k + 1] == seen + [v];
      DedupSnoc(seen, v);
      TableOfSnoc(w, cands, i, seen, v);
      assert cell == CellFor(w, cands, i, v);
      assert v in table <==> v in keys;
      if v !in table {
        keys := keys + [v];
      }
      table := table[v := cell];
      k := k + 1;
    }
    assert cands[i][..k] == cands[i];
  }

  /** The first cheapest key of the last table, as min chooses it. */
  method CheapestFinal(key: KeyContext, an: Analysis, cands: seq<seq<Voicing>>,
                       last: map<Voicing, Cell>, lastKeys: seq<Voicing>) returns (cur: Voicing, total: nat)
    requires Voiced(cands) && |cands| > 0
    requires lastKeys == Dedup(cands[|cands| - 1]) && last == TableOf(CostsOf(key, an), cands, |cands| - 1, cands[|cands| - 1])
    ensures cur == Final(CostsOf(key, an), cands) && cur in cands[|cands| - 1]
    ensures total == Best(CostsOf(key, an), cands, |cands| - 1, cur)
  {
    ghost var w := CostsOf(key, an);
    assert lastKeys[0] in cands[|cands| - 1];
    cur := lastKeys[0];
    total := last[cur].cost;
    ghost var c: nat := 0;
    var m := 1;
    while m < |lastKeys|
      invariant 1 <= m <= |lastKeys|
      invariant c == FirstCheapestFinal(w, cands, m)
      invariant c < |lastKeys| && cur == lastKeys[c] && total == FinalCost(w, cands, c)
    {
      var u := lastKeys[m];
      assert u in cands[|cands| - 1];
      assert last[u].cost == FinalCost(w, cands, m);
      FirstCheapestFinalNext(w, cands, m);
      if last[u].cost < total {
        cur, total := u, last[u].cost;
        c := m;
      }
      m := m + 1;
    }
    assert cur in lastKeys;
  }

  /** The table of position j holds the j-th voicing of the path read back from `f`, pointing to the one before. */
  lemma TraceAt(w: Weights, cands: seq<seq<Voicing>>, table: map<Voicing, Cell>, j: nat, f: Voicing, trail: seq<Voicing>)
    requires Voiced(cands) && j < |cands| && f in cands[|cands| - 1]
    requires table == TableOf(w, cands, j, cands[j])
    requires trail == Reconstruct(w, cands, |cands| - 1, f)
    ensures trail[j] in table
    ensures table[trail[j]].pred == if j == 0 then None else Some(trail[j - 1])
  {
    ReconstructChosen(w, cands, |cands| - 1, f);
    assert trail[j] in cands[j];
    if j > 0 {
      ReconstructLink(w, cands, |cands| - 1, f, j);
    }
  }

  /** The tables hold, along the path read back from `f`, exactly its links. */
  lemma TablesTrace(w: Weights, cands: seq<seq<Voicing>>, dp: seq<map<Voicing, Cell>>, f: Voicing, trail: seq<Voicing>)
    requires Voiced(cands) && |cands| > 0 && |dp| == |cands| && f in cands[|cands| - 1]
    requires forall j :: 0 <= j < |dp| ==> dp[j] == TableOf(w, cands, j, cands[j])
    requires trail == Reconstruct(w, cands, |cands| - 1, f)
    ensures forall j :: 0 <= j < |dp| ==> trail[j] in dp[j]
    ensures dp[0][trail[0]].pred == None
    ensures forall j :: 0 < j < |dp| ==> dp[j][trail[j]].pred == Some(trail[j - 1])
  {
    forall j | 0 <= j < |dp|
      ensures trail[j] in dp[j] && dp[j][trail[j]].pred == if j == 0 then None else Some(trail[j - 1])
    {
      TraceAt(w, cands, dp[j], j, f, trail);
    }
  }

  /**
   * Walks the backpointers from `cur` at the last position down to the
   * first, where the pointer is None, appending each voicing, and returns
   * the reversal of what it appended: the trail the pointers spell.
   */
  method Backtrack(dp: seq<map<Voicing, Cell>>, cur: Voicing, ghost trail: seq<Voicing>) returns (path: seq<Voicing>)
    requires |dp| > 0 && |trail| == |dp| && cur == trail[|trail| - 1]
    requires forall j :: 0 <= j < |dp| ==> trail[j] in dp[j]
    requires dp[0][trail[0]].pred == None
    requires forall j :: 0 < j < |dp| ==> dp[j][trail[j]].pred == Some(trail[j - 1])
    ensures path == trail
  {
    var ret: seq<Voicing> := [];
    var at: Option<Voicing> := Some(cur);
    var j := |dp|;
    while j > 0
      invariant 0 <= j <= |dp|
      invariant at == if j == 0 then None else Some(trail[j - 1])
      invariant Reversed(ret) == trail[j..]
    {
      var here := at.value;
      ReversedSnoc(ret, here);
      assert trail[j - 1..] == [here] + trail[j..];
      ret := ret + [here];
      at := dp[j - 1][here].pred;
      j := j - 1;
    }
    path := Reversed(ret);
  }

  /** The first position without a candidate, if there is one. */
  method FirstUnvoiced(cands: seq<seq<Voicing>>) returns (e: Option<nat>)
    ensures e.None? <==> Voiced(cands)
    ensures e.Some? ==> e.value < |cands| && |cands[e.value]| == 0 && forall k :: 0 <= k < e.value ==> |cands[k]| > 0
  {
    var k := 0;
    while k < |cands|
      invariant 0 <= k <= |cands|
      invariant forall j :: 0 <= j < k ==> |cands[j]| > 0
    {
      if |cands[k]| == 0 {
        return Some(k);
      }
      k := k + 1;
    }
    return None;
  }

  /** The tables of every position, filled in order, each with its key order. */
  method FillTables(key: KeyContext, an: Analysis, cands: seq<seq<Voicing>>)
    returns (dp: seq<map<Voicing, Cell>>, order: seq<seq<Voicing>>)
    requires Voiced(cands)
    ensures |dp| == |cands| && |order| == |cands|
    ensures forall j :: 0 <= j < |cands| ==> order[j] == Dedup(cands[j])
    ensures forall j :: 0 <= j < |cands| ==> dp[j] == TableOf(CostsOf(key, an), cands, j, cands[j])
  {
    ghost var w := CostsOf(key, an);
    dp := [];
    order := [];
    var i := 0;
    while i < |cands|
      invariant 0 <= i <= |cands| && |dp| == i && |order| == i
      invariant forall j :: 0 <= j < i ==> order[j] == Dedup(cands[j])
      invariant forall j :: 0 <= j < i ==> dp[j] == TableOf(w, cands, j, cands[j])
    {
      var prev, prevKeys := map[], [];
      if i > 0 {
        prev, prevKeys := dp[i - 1], order[i - 1];
      }
      var table, keys := FillTable(key, an, cands, i, prev, prevKeys);
      TablesSnoc(w, cands, dp, table, i);
      KeysSnoc(cands, order, keys, i);
      dp := dp + [table];
      order := order + [keys];
      i := i + 1;
    }
  }

  /** Appending the key order of position i keeps every key order the dictionary's. */
  lemma KeysSnoc(cands: seq<seq<Voicing>>, order: seq<seq<Voicing>>, keys: seq<Voicing>, i: nat)
    requires i < |cands| && |order| == i
    requires forall j :: 0 <= j < i ==> order[j] == Dedup(cands[j])
    requires keys == Dedup(cands[i])
    ensures forall j :: 0 <= j <= i ==> (order + [keys])[j] == Dedup(cands[j])
  {
    forall j | 0 <= j <= i ensures (order + [keys])[j] == Dedup(cands[j]) {
      if j < i {
        assert (order + [keys])[j] == order[j];
      }
    }
  }

  /** Appending the table of position i keeps every table its specified value. */
  lemma TablesSnoc(w: Weights, cands: seq<seq<Voicing>>, dp: seq<map<Voicing, Cell>>, table: map<Voicing, Cell>, i: nat)
    requires Voiced(cands) && i < |cands| && |dp| == i
    requires forall j :: 0 <= j < i ==> dp[j] == TableOf(w, cands, j, cands[j])
    requires table == TableOf(w, cands, i, cands[i])
    ensures forall j :: 0 <= j <= i ==> (dp + [table])[j] == TableOf(w, cands, j, cands[j])
  {
    forall j | 0 <= j <= i ensures (dp + [table])[j] == TableOf(w, cands, j, cands[j]) {
      if j < i {
        assert (dp + [table])[j] == dp[j];
      }
    }
  }

  /**
   * voiceProgression over the candidate voicings of each position: fills
   * one table per position, then walks the backpointers from the cheapest
   * final voicing. It fails when there is no position or some position has
   * no candidate.
   */
  method Optimize(key: KeyContext, an: Analysis, cands: seq<seq<Voicing>>) returns (r: Result<Solution, Failure>)
    ensures r.Failure? <==> |cands| == 0 || !Voiced(cands)
    ensures r.Failure? && |cands| == 0 ==> r.error == EmptyProgression
    ensures r.Failure? && |cands| > 0 ==>
      && r.error.NoVoicings? && r.error.position < |cands| && |cands[r.error.position]| == 0
      && forall k :: 0 <= k < r.error.position ==> |cands[k]| > 0
    ensures r.Success? ==>
      && Voiced(cands) && |cands| > 0
      && var n := |cands| - 1; var f := Final(CostsOf(key, an), cands);
         r.value == Solution(Reconstruct(CostsOf(key, an), cands, n, f), Best(CostsOf(key, an), cands, n, f))
    ensures r.Success? ==>
      && IsChoice(r.value.chords, cands)
      && r.value.cost == PathCost(CostsOf(key, an), r.value.chords)
      && forall p :: IsChoice(p, cands) ==> r.value.cost <= PathCost(CostsOf(key, an), p)
  {
    ghost var w := CostsOf(key, an);
    var n := |cands|;
    if n == 0 {
      return Failure(EmptyProgression);
    }
    var empty := FirstUnvoiced(cands);
    if empty.Some? {
      return Failure(NoVoicings(empty.value));
    }
    var dp, order := FillTables(key, an, cands);
    var cur, total := CheapestFinal(key, an, cands, dp[n - 1], order[n - 1]);
    ghost var trail := Reconstruct(w, cands, n - 1, cur);
    TablesTrace(w, cands, dp, cur, trail);
    var path := Backtrack(dp, cur, trail);
    Optimal(w, cands);
    r := Success(Solution(path, total));
  }

  /** The candidate voicings of each chord of the progression, as voiceChord returns them. */
  function Candidates(key: KeyContext, rg: Ranges, chords: seq<ChordDescriptor>): (cands: seq<seq<Voicing>>)
    requires forall k :: 0 <= k < |chords| ==> WellFormed(chords[k])
    ensures |cands| == |chords|
    ensures forall k :: 0 <= k < |chords| ==> cands[k] == VoiceChord(key, chords[k], rg)
  {
    seq(|chords|, k requires 0 <= k < |chords| => VoiceChord(key, chords[k], rg))
  }

  /**
   * The candidates of each position are exactly the legal voicings of one
   * of the doublings its chord offers, and each keeps the voices in their
   * ranges, in order, and the upper voices within an octave.
   */
  lemma CandidatesAreVoicings(key: KeyContext, rg: Ranges, chords: seq<ChordDescriptor>, k: nat, v: Voicing)
    requires forall j :: 0 <= j < |chords| ==> WellFormed(chords[j])
    requires k < |chords|
    ensures v in Candidates(key, rg, chords)[k] <==>
      exists b: seq<PitchClass> :: b in Doublings(key, chords[k]) && ChordVoicing(v, b, rg)
    ensures v in Candidates(key, rg, chords)[k] ==>
      && rg.bass.Contains(v[0]) && rg.tenor.Contains(v[1]) && rg.alto.Contains(v[2]) && rg.soprano.Contains(v[3])
      && v[0] <= v[1] <= v[2] <= v[3] && v[3] - v[2] <= 12 && v[2] - v[1] <= 12
  {
    if v in Candidates(key, rg, chords)[k] {
      VoiceChordShape(key, chords[k], rg, v);
    }
  }

  /**
   * voiceProgression: voices each resolved numeral with voiceChord and
   * optimises over those candidates. It fails exactly when the progression
   * is empty or some chord has no voicing; otherwise it returns one
   * candidate per chord, the total cost of that choice, and no choice of
   * candidates costs less.
   */
  method VoiceProgression(key: KeyContext, an: Analysis, rg: Ranges, chords: seq<ChordDescriptor>)
    returns (r: Result<Solution, Failure>)
    requires forall k :: 0 <= k < |chords| ==> WellFormed(chords[k])
    ensures r.Failure? <==> |chords| == 0 || !Voiced(Candidates(key, rg, chords))
    ensures r.Success? ==>
      && IsChoice(r.value.chords, Candidates(key, rg, chords))
      && r.value.cost == PathCost(CostsOf(key, an), r.value.chords)
      && forall p :: IsChoice(p, Candidates(key, rg, chords)) ==> r.value.cost <= PathCost(CostsOf(key, an), p)
  {
    var cands := Candidates(key, rg, chords);
    r := Optimize(key, an, cands);
  }
}
