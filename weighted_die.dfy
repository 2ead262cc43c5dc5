/** `roll_weighted_die`: the discrete sampler every stochastic decision of the
    transforms goes through. The weights are summed into a running total
    (`std::partial_sum`), a draw is taken uniformly on [0, total], and the face
    is the first index whose running total is not below the draw
    (`std::lower_bound`). */
module WeightedDie {
  import opened Common

  /** Sum of a sequence of weights. */
  function Sum(s: seq<real>): real
  {
    if s == [] then 0.0 else Sum(s[..|s| - 1]) + s[|s| - 1]
  }

  /** `std::partial_sum`: entry i is the sum of the weights 0..i. */
  function Cumulative(w: seq<real>): (c: seq<real>)
    ensures |c| == |w|
  {
    seq(|w|, i requires 0 <= i < |w| => Sum(w[..i + 1]))
  }

  predicate Sorted(c: seq<real>)
  {
    forall i, j :: 0 <= i <= j < |c| ==> c[i] <= c[j]
  }

  /** `std::lower_bound`: the first index whose entry is not below `v`,
      or |c| when every entry is below it. */
  function LowerBound(c: seq<real>, v: real): (i: nat)
    ensures i <= |c|
    ensures forall j :: 0 <= j < i ==> c[j] < v
    ensures i < |c| ==> v <= c[i]
  {
    if c == [] || v <= c[0] then 0 else 1 + LowerBound(c[1..], v)
  }

  /** The unit draw `t` scaled to a draw on [0, total]. */
  function ScaledDraw(w: seq<real>, t: real): real
  {
    t * Sum(w)
  }

  /** The face shown for the unit draw `t`: the smallest face whose running
      total reaches the scaled draw. */
  function Roll(w: seq<real>, t: real): (face: nat)
    requires |w| > 0 && Sum(w) >= 0.0 && 0.0 <= t <= 1.0
    ensures face < |w|
    ensures ScaledDraw(w, t) <= Cumulative(w)[face]
    ensures forall j :: 0 <= j < face ==> Cumulative(w)[j] < ScaledDraw(w, t)
  {
    RollInRange(w, t);
    LowerBound(Cumulative(w), ScaledDraw(w, t))
  }

  /** The scaled draw never passes the last running total, so a face is found. */
  lemma RollInRange(w: seq<real>, t: real)
    requires |w| > 0 && Sum(w) >= 0.0 && 0.0 <= t <= 1.0
    ensures LowerBound(Cumulative(w), ScaledDraw(w, t)) < |w|
  {
    var c, v := Cumulative(w), ScaledDraw(w, t);
    assert v <= c[|c| - 1] by {
      LastCumulativeIsSum(w);
      ScaledDrawBelowTotal(w, t);
    }
    LowerBoundBeforeLast(c, v);
  }

  /** The last running total is the sum of all the weights. */
  lemma LastCumulativeIsSum(w: seq<real>)
    requires |w| > 0
    ensures Cumulative(w)[|w| - 1] == Sum(w)
  {
    assert w[..|w|] == w;
  }

  /** A value not above the last entry is found inside the range. */
  lemma LowerBoundBeforeLast(c: seq<real>, v: real)
    requires |c| > 0 && v <= c[|c| - 1]
    ensures LowerBound(c, v) < |c|
  {
  }

  /** A unit draw scaled to a non-negative total does not exceed it. */
  lemma ScaledDrawBelowTotal(w: seq<real>, t: real)
    requires 0.0 <= t <= 1.0 && Sum(w) >= 0.0
    ensures ScaledDraw(w, t) <= Sum(w)
  {
    var total := Sum(w);
    MulNonNegative(1.0 - t, total);
    assert (1.0 - t) * total == total - t * total;
  }

  /** The first-index property determines the lower bound. */
  lemma LowerBoundUnique(c: seq<real>, v: real, i: nat)
    requires i <= |c|
    requires forall j :: 0 <= j < i ==> c[j] < v
    requires i < |c| ==> v <= c[i]
    ensures i == LowerBound(c, v)
  {
    var lb := LowerBound(c, v);
  }

  lemma SumStep(w: seq<real>, i: nat)
    requires i < |w|
    ensures Sum(w[..i + 1]) == Sum(w[..i]) + w[i]
  {
    assert w[..i + 1][..i] == w[..i];
  }

  /** The sampler as the source runs it: a running-sum loop, then a binary search. */
  method RollWeightedDie(probabilities: seq<real>, t: real) returns (face: nat)
    requires |probabilities| > 0 && Sum(probabilities) >= 0.0 && 0.0 <= t <= 1.0
    requires Sorted(Cumulative(probabilities))  // std::lower_bound needs an ordered range
    ensures face == Roll(probabilities, t)
  {
    var cumulative: seq<real> := [];
    var acc := 0.0;
    for i := 0 to |probabilities|
      invariant |cumulative| == i
      invariant forall k :: 0 <= k < i ==> cumulative[k] == Sum(probabilities[..k + 1])
      invariant acc == Sum(probabilities[..i])
    {
      SumStep(probabilities, i);
      acc := acc + probabilities[i];
      cumulative := cumulative + [acc];
    }
    assert cumulative == Cumulative(probabilities);
    assert probabilities[..|probabilities|] == probabilities;
    var val := t * cumulative[|cumulative| - 1];
    assert val == ScaledDraw(probabilities, t);
    face := LowerBoundSearch(cumulative, val);
  }

  /** `std::lower_bound` over an ordered range, by binary search. */
  method LowerBoundSearch(c: seq<real>, v: real) returns (i: nat)
    requires Sorted(c)
    ensures i == LowerBound(c, v)
  {
    var lo, hi := 0, |c|;
    while lo < hi
      invariant 0 <= lo <= hi <= |c|
      invariant forall j :: 0 <= j < lo ==> c[j] < v
      invariant forall j :: hi <= j < |c| ==> v <= c[j]
    {
      var mid := lo + (hi - lo) / 2;
      if c[mid] < v {
        lo := mid + 1;
      } else {
        hi := mid;
      }
    }
    LowerBoundUnique(c, v, lo);
    i := lo;
  }

  /** Non-negative weights give an ordered running total. */
  lemma {:induction false} NonNegativeWeightsSorted(w: seq<real>)
    requires forall k :: 0 <= k < |w| ==> w[k] >= 0.0
    ensures Sorted(Cumulative(w))
  {
    var c := Cumulative(w);
    forall i, j | 0 <= i <= j < |c| ensures c[i] <= c[j] {
      PrefixSumMonotone(w, i + 1, j + 1);
    }
  }

  lemma {:induction false} PrefixSumMonotone(w: seq<real>, a: nat, b: nat)
    requires a <= b <= |w|
    requires forall k :: 0 <= k < |w| ==> w[k] >= 0.0
    ensures Sum(w[..a]) <= Sum(w[..b])
    decreases b - a
  {
    if a < b {
      SumStep(w, b - 1);
      PrefixSumMonotone(w, a, b - 1);
    }
  }

  /** The two-face die `{1 - p, p}` of the Bernoulli gates. */
  function BinaryProbs(p: real): seq<real> { [1.0 - p, p] }

  lemma BinaryCumulative(p: real)
    ensures Sum(BinaryProbs(p)) == 1.0
    ensures Cumulative(BinaryProbs(p)) == [1.0 - p, 1.0]
  {
    var w := BinaryProbs(p);
    assert w[..1][..0] == [];
    assert Sum(w[..1]) == 1.0 - p;
    assert w[..2] == w;
    assert w[..2][..1] == w[..1];
    assert Sum(w) == Sum(w[..1]) + p;
  }

  /** A Bernoulli gate with probability `p` shows face 1 exactly when the unit
      draw lies above `1 - p`; the running total is ordered for every p >= 0. */
  lemma GateFires(p: real, t: real)
    requires p >= 0.0 && 0.0 <= t <= 1.0
    ensures Sum(BinaryProbs(p)) == 1.0 && Sorted(Cumulative(BinaryProbs(p)))
    ensures Roll(BinaryProbs(p), t) == 1 <==> t > 1.0 - p
  {
    BinaryCumulative(p);
  }

  /** The gate as the effect chains use it: `roll_weighted_die({1 - p, p}) == 1`. */
  function Gate(p: real, t: real): (fires: bool)
    requires p >= 0.0 && 0.0 <= t <= 1.0
    ensures fires <==> t > 1.0 - p
  {
    GateFires(p, t);
    Roll(BinaryProbs(p), t) == 1
  }

  /** The fair coin `{0.5, 0.5}` shows 1 exactly when the draw lies above one half. */
  lemma FairCoin(t: real)
    requires 0.0 <= t <= 1.0
    ensures [0.5, 0.5] == BinaryProbs(0.5)
    ensures Roll([0.5, 0.5], t) == 1 <==> t > 0.5
  {
    GateFires(0.5, t);
  }

  function Repeat(x: real, k: nat): (s: seq<real>)
    ensures |s| == k
    ensures forall i :: 0 <= i < k ==> s[i] == x
  {
    if k == 0 then [] else Repeat(x, k - 1) + [x]
  }

  /** `vector<float> probs(n, 1.f / n)`: the uniform die over n faces. */
  function UniformWeights(n: nat): seq<real>
    requires n > 0
  {
    Repeat(1.0 / n as real, n)
  }

  lemma {:induction false} UniformPrefix(n: nat, k: nat)
    requires 0 < n && k <= n
    ensures Sum(UniformWeights(n)[..k]) == k as real / n as real
  {
    if k > 0 {
      SumStep(UniformWeights(n), k - 1);
      UniformPrefix(n, k - 1);
    }
  }

  lemma UniformCumulative(n: nat, k: nat)
    requires 0 < n && k < n
    ensures Sum(UniformWeights(n)) == 1.0
    ensures Cumulative(UniformWeights(n))[k] == (k + 1) as real / n as real
  {
    var w := UniformWeights(n);
    UniformPrefix(n, n);
    assert w[..n] == w;
    assert (n as real) / (n as real) == 1.0;
    UniformPrefix(n, k + 1);
  }

  /** A draw of the uniform die selects face i exactly when the scaled draw
      `t * n` lies in (i, i + 1] (face 0 also takes the draw 0). */
  lemma UniformChoice(n: nat, t: real)
    requires n > 0 && 0.0 <= t <= 1.0
    ensures Sum(UniformWeights(n)) == 1.0
    ensures var face := Roll(UniformWeights(n), t);
      face < n && t * n as real <= (face + 1) as real && (face == 0 || (face as real) < t * n as real)
  {
    UniformCumulative(n, 0);
    var i := Roll(UniformWeights(n), t);
    UniformFaceUpper(n, t, i);
    if i > 0 {
      UniformFaceLower(n, t, i);
    }
  }

  /** The scaled draw does not pass the top of the face's interval. */
  lemma UniformFaceUpper(n: nat, t: real, i: nat)
    requires n > 0 && i < n && ScaledDraw(UniformWeights(n), t) <= Cumulative(UniformWeights(n))[i]
    ensures t * n as real <= (i + 1) as real
  {
    UniformCumulative(n, i);
    DivideBounds(t, (i + 1) as real, n as real);
  }

  /** The scaled draw lies above the bottom of the face's interval. */
  lemma UniformFaceLower(n: nat, t: real, i: nat)
    requires n > 0 && 0 < i < n && Cumulative(UniformWeights(n))[i - 1] < ScaledDraw(UniformWeights(n), t)
    ensures (i as real) < t * n as real
  {
    UniformCumulative(n, i - 1);
    DivideBounds(t, i as real, n as real);
  }
}
