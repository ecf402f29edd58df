/** Reservoir sampling as `sample_peers` does it, and its exact uniformity: all
    outcomes of the random draws are counted (src/transfers/rumor.py:64-78). */
module Reservoir {
  import opened Arithmetic
  import opened Peers

  /** Draw number i is one of 0..i once the reservoir is full; before that there is
      nothing to draw and the entry is 0. */
  ghost predicate Draws(k: nat, choices: seq<nat>) {
    forall i :: 0 <= i < |choices| ==> choices[i] <= (if i < k then 0 else i)
  }

  /** The reservoir after as many candidates as there are draws. */
  function Sample(peers: seq<PeerId>, k: nat, choices: seq<nat>): (r: seq<PeerId>)
    requires |choices| <= |peers|
    ensures |r| == Min(k, |choices|)
  {
    if choices == [] then []
    else
      var i := |choices| - 1;
      var r := Sample(peers, k, choices[..i]);
      Place(r, peers[i], k, i, choices[i])
  }

  /** What the loop body does with candidate number `i`. */
  function Place(r: seq<PeerId>, p: PeerId, k: nat, i: nat, j: nat): (r': seq<PeerId>)
    requires |r| == Min(k, i)
    ensures |r'| == Min(k, i + 1)
  {
    if i < k then r + [p] else if j < k then r[j := p] else r
  }

  /** How many ways the draws can still go. */
  function Outcomes(n: nat, k: nat, i: nat): nat
    requires i <= n
    decreases n - i
  {
    if i == n then 1 else if i < k then Outcomes(n, k, i + 1) else (i + 1) * Outcomes(n, k, i + 1)
  }

  /** In how many of them `x` is in the result. */
  function Hits(peers: seq<PeerId>, k: nat, choices: seq<nat>, x: PeerId): nat
    requires |choices| <= |peers|
    decreases |peers| - |choices|, 1, 0
  {
    if |choices| == |peers| then (if x in Sample(peers, k, choices) then 1 else 0)
    else if |choices| < k then Hits(peers, k, choices + [0], x)
    else HitsOver(peers, k, choices, x, |choices| + 1)
  }

  /** The same, over the next draws below `m`. */
  function HitsOver(peers: seq<PeerId>, k: nat, choices: seq<nat>, x: PeerId, m: nat): nat
    requires |choices| < |peers|
    decreases |peers| - |choices|, 0, m
  {
    if m == 0 then 0
    else HitsOver(peers, k, choices, x, m - 1) + Hits(peers, k, choices + [m - 1], x)
  }

  /** The first `k` candidates fill the reservoir in order; each later one takes the slot that
      its draw names, if there is one, and nobody else's. */
  lemma {:induction false} DrawByDraw(peers: seq<PeerId>, k: nat, choices: seq<nat>, slot: nat)
    requires |choices| <= |peers|
    ensures |choices| <= k ==> Sample(peers, k, choices) == peers[..|choices|]
    ensures |choices| > k && slot < k ==>
      var last := |choices| - 1;
      Sample(peers, k, choices)[slot]
        == if choices[last] == slot then peers[last] else Sample(peers, k, choices[..last])[slot]
  {
    if choices != [] && |choices| <= k { DrawByDraw(peers, k, choices[..|choices| - 1], slot); }
  }

  lemma {:induction false} SampleShape(peers: seq<PeerId>, k: nat, choices: seq<nat>)
    requires |choices| <= |peers| && Distinct(peers)
    ensures Distinct(Sample(peers, k, choices))
    ensures forall p :: p in Sample(peers, k, choices) ==> p in peers[..|choices|]
    decreases |choices|
  {
    if choices != [] {
      var i := |choices| - 1;
      SampleShape(peers, k, choices[..i]);
      assert peers[i] !in peers[..i];
      assert peers[..i + 1] == peers[..i] + [peers[i]];
    }
  }

  lemma SampleStep(peers: seq<PeerId>, k: nat, choices: seq<nat>, j: nat)
    requires |choices| < |peers|
    ensures Sample(peers, k, choices + [j])
         == Place(Sample(peers, k, choices), peers[|choices|], k, |choices|, j)
  {
    assert (choices + [j])[..|choices|] == choices;
  }

  /** `x` has been considered and is not in the reservoir: it never comes back. */
  lemma {:induction false} GoneForGood(peers: seq<PeerId>, k: nat, choices: seq<nat>, x: PeerId)
    requires |choices| <= |peers| && Distinct(peers)
    requires x in peers[..|choices|] && x !in Sample(peers, k, choices)
    ensures Hits(peers, k, choices, x) == 0
    decreases |peers| - |choices|, 1, 0
  {
    if |choices| < |peers| {
      if |choices| < k { GoneStep(peers, k, choices, x, 0); } else { GoneOver(peers, k, choices, x, |choices| + 1); }
    }
  }

  lemma {:induction false} GoneStep(peers: seq<PeerId>, k: nat, choices: seq<nat>, x: PeerId, j: nat)
    requires |choices| < |peers| && Distinct(peers)
    requires x in peers[..|choices|] && x !in Sample(peers, k, choices)
    ensures Hits(peers, k, choices + [j], x) == 0
    decreases |peers| - |choices|, 0, 0
  {
    SampleStep(peers, k, choices, j);
    assert peers[..|choices| + 1] == peers[..|choices|] + [peers[|choices|]];
    assert x != peers[|choices|];
    GoneForGood(peers, k, choices + [j], x);
  }

  lemma {:induction false} GoneOver(peers: seq<PeerId>, k: nat, choices: seq<nat>, x: PeerId, m: nat)
    requires |choices| < |peers| && Distinct(peers)
    requires x in peers[..|choices|] && x !in Sample(peers, k, choices)
    ensures HitsOver(peers, k, choices, x, m) == 0
    decreases |peers| - |choices|, 0, m
  {
    if m > 0 {
      GoneOver(peers, k, choices, x, m - 1);
      GoneStep(peers, k, choices, x, m - 1);
    }
  }

  // ---- adding up equal branches --------------------------------------------

  function Matching(good: nat -> bool, m: nat): nat {
    if m == 0 then 0 else Matching(good, m - 1) + (if good(m - 1) then 1 else 0)
  }

  lemma AddBranch(n: nat, a: nat, b: nat, c: nat, w: nat, good: bool)
    requires n * a == c * w && n * b == if good then w else 0
    ensures n * (a + b) == (c + (if good then 1 else 0)) * w
  {
    assert n * (a + b) == n * a + n * b;
    assert (c + 1) * w == c * w + w;
  }

  /** Branches worth `w` or nothing add up to their number times `w`. */
  lemma {:induction false} SumBranches(peers: seq<PeerId>, k: nat, choices: seq<nat>, x: PeerId, good: nat -> bool, w: nat, m: nat)
    requires |choices| < |peers|
    requires forall j: nat :: j < m ==>
      |peers| * Hits(peers, k, choices + [j], x) == if good(j) then w else 0
    ensures |peers| * HitsOver(peers, k, choices, x, m) == Matching(good, m) * w
    decreases m
  {
    if m > 0 {
      SumBranches(peers, k, choices, x, good, w, m - 1);
      var n, a, b := |peers|, HitsOver(peers, k, choices, x, m - 1), Hits(peers, k, choices + [m - 1], x);
      AddBranch(n, a, b, Matching(good, m - 1), w, good(m - 1));
    }
  }

  function Below(k: nat): nat -> bool { (j: nat) => j < k }

  function Others(p: nat): nat -> bool { (j: nat) => j != p }

  function Always(): nat -> bool { (j: nat) => true }

  lemma {:induction false} CountBelow(k: nat, m: nat)
    ensures Matching(Below(k), m) == Min(k, m)
  {
    if m > 0 { CountBelow(k, m - 1); }
  }

  lemma {:induction false} CountOthers(p: nat, m: nat)
    ensures Matching(Others(p), m) == if p < m then m - 1 else m
  {
    if m > 0 { CountOthers(p, m - 1); }
  }

  lemma {:induction false} CountAlways(m: nat)
    ensures Matching(Always(), m) == m
  {
    if m > 0 { CountAlways(m - 1); }
  }

  // ---- the shares ----------------------------------------------------------

  /** A peer in the full reservoir after i candidates stays in an i/n share. */
  lemma {:induction false} Kept(peers: seq<PeerId>, k: nat, choices: seq<nat>, x: PeerId)
    requires Distinct(peers) && k <= |choices| <= |peers| && x in Sample(peers, k, choices)
    ensures |peers| * Hits(peers, k, choices, x) == |choices| * Outcomes(|peers|, k, |choices|)
    decreases |peers| - |choices|
  {
    var n, i := |peers|, |choices|;
    if i < n {
      var r := Sample(peers, k, choices);
      var p :| 0 <= p < |r| && r[p] == x;
      var w := Outcomes(n, k, i);
      forall j: nat | j < i + 1 ensures n * Hits(peers, k, choices + [j], x) == if Others(p)(j) then w else 0 {
        SampleStep(peers, k, choices, j);
        SampleShape(peers, k, choices);
        if j != p {
          assert Place(r, peers[i], k, i, j)[p] == x;
          Kept(peers, k, choices + [j], x);
        } else {
          GoneWhenReplaced(peers, k, choices, x, j);
        }
      }
      SumBranches(peers, k, choices, x, Others(p), w, i + 1);
      CountOthers(p, i + 1);
    }
  }

  lemma GoneWhenReplaced(peers: seq<PeerId>, k: nat, choices: seq<nat>, x: PeerId, j: nat)
    requires Distinct(peers) && k <= |choices| < |peers| && j < k && Sample(peers, k, choices)[j] == x
    ensures Hits(peers, k, choices + [j], x) == 0
  {
    var i, r := |choices|, Sample(peers, k, choices);
    SampleStep(peers, k, choices, j);
    SampleShape(peers, k, choices);
    assert x in peers[..i] && x != peers[i];
    assert peers[..i + 1] == peers[..i] + [peers[i]];
    GoneForGood(peers, k, choices + [j], x);
  }

  /** A candidate still to come gets in and stays in a k/n share. */
  lemma {:induction false} Coming(peers: seq<PeerId>, k: nat, choices: seq<nat>, t: nat)
    requires Distinct(peers) && k <= |choices| <= t < |peers|
    ensures |peers| * Hits(peers, k, choices, peers[t]) == k * Outcomes(|peers|, k, |choices|)
    decreases |peers| - |choices|
  {
    var n, i, x := |peers|, |choices|, peers[t];
    if t == i { ComingNow(peers, k, choices); } else {
      var o := Outcomes(n, k, i + 1);
      forall j: nat | j < i + 1 ensures n * Hits(peers, k, choices + [j], x) == if Always()(j) then k * o else 0 {
        Coming(peers, k, choices + [j], t);
      }
      SumBranches(peers, k, choices, x, Always(), k * o, i + 1);
      CountAlways(i + 1);
      assert (i + 1) * (k * o) == k * ((i + 1) * o);
    }
  }

  lemma ComingNow(peers: seq<PeerId>, k: nat, choices: seq<nat>)
    requires Distinct(peers) && k <= |choices| < |peers|
    ensures |peers| * Hits(peers, k, choices, peers[|choices|]) == k * Outcomes(|peers|, k, |choices|)
  {
    var n, i, x := |peers|, |choices|, peers[|choices|];
    var w := Outcomes(n, k, i);
    SampleShape(peers, k, choices);
    assert x !in peers[..i];
    forall j: nat | j < i + 1 ensures n * Hits(peers, k, choices + [j], x) == if Below(k)(j) then w else 0 {
      SampleStep(peers, k, choices, j);
      if j < k {
        assert Place(Sample(peers, k, choices), x, k, i, j)[j] == x;
        Kept(peers, k, choices + [j], x);
      } else {
        assert x == peers[..i + 1][i];
        GoneForGood(peers, k, choices + [j], x);
      }
    }
    SumBranches(peers, k, choices, x, Below(k), w, i + 1);
    CountBelow(k, i + 1);
  }

  /** While the reservoir fills up it holds the first candidates. */
  lemma {:induction false} Filling(peers: seq<PeerId>, k: nat, choices: seq<nat>, t: nat)
    requires Distinct(peers) && |choices| <= k <= |peers| && t < |peers| && Sample(peers, k, choices) == peers[..|choices|]
    ensures |peers| * Hits(peers, k, choices, peers[t]) == k * Outcomes(|peers|, k, |choices|)
    decreases k - |choices|
  {
    var i := |choices|;
    if i < k {
      SampleStep(peers, k, choices, 0);
      assert peers[..i + 1] == peers[..i] + [peers[i]];
      Filling(peers, k, choices + [0], t);
    } else if t < i {
      assert peers[..i][t] == peers[t];
      Kept(peers, k, choices, peers[t]);
    } else {
      Coming(peers, k, choices, t);
    }
  }

  /** Of all outcomes of the draws, every candidate is in the sample in exactly a
      k/n share. */
  lemma SamplingIsUniform(peers: seq<PeerId>, k: nat, x: PeerId)
    requires Distinct(peers) && k <= |peers| && x in peers
    ensures |peers| * Hits(peers, k, [], x) == k * Outcomes(|peers|, k, 0)
  {
    var t :| 0 <= t < |peers| && peers[t] == x;
    Filling(peers, k, [], t);
  }

  /** Whatever the draws, the sample has min(k, n) different candidates. */
  lemma SampleIsASubset(peers: seq<PeerId>, k: nat, choices: seq<nat>)
    requires Distinct(peers) && |choices| == |peers|
    ensures var r := Sample(peers, k, choices);
            |r| == Min(k, |peers|) && Distinct(r) && forall p :: p in r ==> p in peers
  {
    SampleShape(peers, k, choices);
    assert peers[..|choices|] == peers;
  }
}
