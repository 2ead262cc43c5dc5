/** The gates of the distortion schedule: which draws each effect of
    `Distortion.Steps` and `Distortion.ApplyDistort` reads, and when it runs,
    proved by induction over the order of the effects. */

module DistortionGates {
  import opened Common
  import opened WeightedDie
  import opened Distortion

  /** The gates decide the effects: the `i`-th effect runs exactly when it is
      flagged and the draw at its offset passes the gate `[1 - prob, prob]`,
      and a running effect other than the shuffle has the magnitude drawn by
      the next draw. */
  lemma {:induction false} StepsFollowGates(param: DistortParam, kinds: seq<Kind>, channels: nat, draws: seq<real>, i: nat)
    requires param.prob > 0.0 && UnitDraws(draws) && |draws| >= 2 * |kinds|
    requires Distinct(kinds) && i < |kinds|
    requires Steps(param, kinds, channels, draws).Ok?
    ensures Offset(param, kinds, draws, i) + 1 < |draws|
    ensures var o := Offset(param, kinds, draws, i);
      FollowsGate(param, kinds[i], Steps(param, kinds, channels, draws).value.0, draws[o], draws[o + 1])
    decreases |kinds|, 2
  {
    if i == 0 {
      FirstFollowsGate(param, kinds, channels, draws);
    } else {
      LaterFollowsGate(param, kinds, channels, draws, i);
    }
  }

  /** A later effect reads the draws past those its predecessors consumed. */
  lemma {:induction false} LaterFollowsGate(param: DistortParam, kinds: seq<Kind>, channels: nat, draws: seq<real>, i: nat)
    requires param.prob > 0.0 && UnitDraws(draws) && |draws| >= 2 * |kinds|
    requires Distinct(kinds) && 0 < i < |kinds|
    requires Steps(param, kinds, channels, draws).Ok?
    ensures Offset(param, kinds, draws, i) + 1 < |draws|
    ensures var o := Offset(param, kinds, draws, i);
      FollowsGate(param, kinds[i], Steps(param, kinds, channels, draws).value.0, draws[o], draws[o + 1])
    decreases |kinds|, 1
  {
    var k := kinds[0];
    var c := Consumed(param, k, draws);
    var next := ChannelsAfter(param, k, draws, channels);
    RestFollowsGate(param, kinds, channels, draws, i);
    StepsUnfold(param, kinds, channels, draws);
    OffsetShift(param, kinds, draws, i);
    HeadGate(param, k, draws);
    assert kinds[i] != k;
    var o := Offset(param, kinds[1..], draws[c..], i - 1);
    var head := Head(param, k, draws);
    var rest := Steps(param, kinds[1..], next, draws[c..]).value.0;
    var oi := Offset(param, kinds, draws, i);
    FollowsGatePrepend(param, head, rest, k, kinds[i], draws[c + o], draws[c + o + 1]);
    assert head + rest == Steps(param, kinds, channels, draws).value.0 && c + o == oi;
  }

  /** A later effect follows its gate in the schedule of the rest, reading the
      draws past those the head consumed. */
  lemma {:induction false} RestFollowsGate(param: DistortParam, kinds: seq<Kind>, channels: nat, draws: seq<real>, i: nat)
    requires param.prob > 0.0 && UnitDraws(draws) && |draws| >= 2 * |kinds|
    requires Distinct(kinds) && 0 < i < |kinds|
    requires Steps(param, kinds, channels, draws).Ok?
    ensures var c := Consumed(param, kinds[0], draws);
      var next := ChannelsAfter(param, kinds[0], draws, channels);
      var o := Offset(param, kinds[1..], draws[c..], i - 1);
      c + o + 1 < |draws| &&
      Steps(param, kinds[1..], next, draws[c..]).Ok? &&
      FollowsGate(param, kinds[i], Steps(param, kinds[1..], next, draws[c..]).value.0, draws[c + o], draws[c + o + 1])
    decreases |kinds|, 0
  {
    var c := Consumed(param, kinds[0], draws);
    var next := ChannelsAfter(param, kinds[0], draws, channels);
    StepsUnfold(param, kinds, channels, draws);
    DistinctTail(kinds);
    StepsFollowGates(param, kinds[1..], next, draws[c..], i - 1);
    OffsetShift(param, kinds, draws, i);
    var o := Offset(param, kinds[1..], draws[c..], i - 1);
    assert kinds[1..][i - 1] == kinds[i] && draws[c..][o] == draws[c + o] && draws[c..][o + 1] == draws[c + o + 1];
  }

  /** `ApplyDistort`'s effects follow their gates: after the order draw, the
      `i`-th effect of the chosen order runs exactly when it is flagged and
      its gate draw fires, a running adjustment takes its magnitude from the
      draw after its gate, and the draws consumed are those of the order
      plus the offset past the last effect. */
  lemma DistortFollowsGates(param: DistortParam, channels: nat, draws: seq<real>, i: nat)
    requires UnitDraws(draws) && |draws| >= 11 && param.prob > 0.0
    requires ApplyDistort(param, channels, draws).Ok? && i < 5
    ensures var order := OrderFor(draws[0]);
      Offset(param, order, draws[1..], i) + 2 < |draws|
    ensures var order := OrderFor(draws[0]);
      var r := ApplyDistort(param, channels, draws).value;
      var o := 1 + Offset(param, order, draws[1..], i);
      FollowsGate(param, order[i], r.0, draws[o], draws[o + 1]) && r.1 == 1 + Offset(param, order, draws[1..], 5)
  {
    DistortIsSteps(param, channels, draws);
    FollowsGatesIn(param, OrderFor(draws[0]), channels, draws, i, ApplyDistort(param, channels, draws).value);
  }

  /** `DistortFollowsGates` for one order, on the draws after the order draw. */
  lemma FollowsGatesIn(param: DistortParam, order: seq<Kind>, channels: nat, draws: seq<real>, i: nat,
                       r: (seq<Adjustment>, nat))
    requires UnitDraws(draws) && |order| == 5 && |draws| >= 11 && param.prob > 0.0
    requires Distinct(order) && i < 5
    requires var steps := Steps(param, order, channels, draws[1..]);
      steps.Ok? && r == (steps.value.0, steps.value.1 + 1)
    ensures Offset(param, order, draws[1..], i) + 2 < |draws|
    ensures var o := 1 + Offset(param, order, draws[1..], i);
      FollowsGate(param, order[i], r.0, draws[o], draws[o + 1]) && r.1 == 1 + Offset(param, order, draws[1..], 5)
  {
    StepsFollowGates(param, order, channels, draws[1..], i);
    StepsUseOffset(param, order, channels, draws[1..]);
    var o := Offset(param, order, draws[1..], i);
    assert r.0 == Steps(param, order, channels, draws[1..]).value.0;
    assert draws[1..][o] == draws[1 + o] && draws[1..][o + 1] == draws[1 + o + 1];
  }
}
