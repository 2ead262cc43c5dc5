/** The effect schedule of `ApplyDistort`: a first uniform draw picks one of
    two effect orders; each flagged effect then rolls the die
    `[1 - prob, prob]` and, when it shows 1, checks its range and draws its
    magnitude. All draws come from the one uniform stream `draws`. The pixel
    kernels (`AdjustBrightness` and the others) are not modelled: the schedule
    names each adjustment with its magnitude. */
module Distortion {
  import opened Common
  import opened WeightedDie

  /** The distortions of `DistortionParameter`. */
  datatype Kind = BrightnessKind | ContrastKind | SaturationKind | HueKind | OrderKind

  /** The fields of `DistortionParameter` the schedule reads. */
  datatype DistortParam = DistortParam(
    prob: real,
    enabled: set<Kind>,
    allEffects: bool,
    brightnessDelta: real,
    contrastLower: real, contrastUpper: real,
    saturationLower: real, saturationUpper: real,
    hueDelta: real)

  /** An adjustment `ApplyDistort` performs, with its drawn magnitude. */
  datatype Adjustment =
    | Brightness(delta: real) | Contrast(factor: real) | Saturation(factor: real) | Hue(shift: real)
    | ReorderChannels

  function KindOf(a: Adjustment): Kind
  {
    match a
    case Brightness(_) => BrightnessKind
    case Contrast(_) => ContrastKind
    case Saturation(_) => SaturationKind
    case Hue(_) => HueKind
    case ReorderChannels => OrderKind
  }

  /** The order used when the first draw exceeds 0.5. */
  function OrderA(): seq<Kind> { [BrightnessKind, ContrastKind, SaturationKind, HueKind, OrderKind] }

  /** The order used otherwise. */
  function OrderB(): seq<Kind> { [BrightnessKind, SaturationKind, HueKind, ContrastKind, OrderKind] }

  /** The order the first draw of `ApplyDistort` selects: A above one half, B
      otherwise. Either lists the five kinds once each. */
  function OrderFor(t: real): (order: seq<Kind>)
    ensures |order| == 5 && Distinct(order)
  {
    if t > 0.5 then OrderA() else OrderB()
  }

  /** `all_effects` turns every flag on. */
  predicate Flagged(param: DistortParam, k: Kind)
  {
    param.allEffects || k in param.enabled
  }

  /** The range the magnitude of `k` is drawn from, `CHECK`ed before the draw. */
  function Range(param: DistortParam, k: Kind): (real, real)
  {
    match k
    case BrightnessKind => (-param.brightnessDelta, param.brightnessDelta)
    case ContrastKind => (param.contrastLower, param.contrastUpper)
    case SaturationKind => (param.saturationLower, param.saturationUpper)
    case HueKind => (-param.hueDelta, param.hueDelta)
    case OrderKind => (0.0, 0.0)
  }

  /** The `CHECK`s of `RandomBrightness` and the others: a non-negative delta, or
      `0 <= lower <= upper`. */
  predicate RangeAccepted(param: DistortParam, k: Kind)
  {
    match k
    case BrightnessKind => param.brightnessDelta >= 0.0
    case ContrastKind => param.contrastUpper >= param.contrastLower && param.contrastLower >= 0.0
    case SaturationKind => param.saturationUpper >= param.saturationLower && param.saturationLower >= 0.0
    case HueKind => param.hueDelta >= 0.0
    case OrderKind => true
  }

  /** The adjustment of kind `k` with magnitude drawn by `t` from its range. */
  function Adjust(param: DistortParam, k: Kind, t: real): Adjustment
  {
    var r := Range(param, k);
    match k
    case BrightnessKind => Brightness(Uniform(r.0, r.1, t))
    case ContrastKind => Contrast(Uniform(r.0, r.1, t))
    case SaturationKind => Saturation(Uniform(r.0, r.1, t))
    case HueKind => Hue(Uniform(r.0, r.1, t))
    case OrderKind => ReorderChannels
  }

  /** The adjustment lies in the range of its kind. */
  predicate InRange(param: DistortParam, a: Adjustment)
  {
    match a
    case Brightness(d) => -param.brightnessDelta <= d <= param.brightnessDelta
    case Contrast(f) => param.contrastLower <= f <= param.contrastUpper
    case Saturation(f) => param.saturationLower <= f <= param.saturationUpper
    case Hue(s) => -param.hueDelta <= s <= param.hueDelta
    case ReorderChannels => true
  }

  /** The adjustments whose kernel converts the image to HSV and back: a
      saturation factor other than exactly `1 +- 0.001`, and a non-zero hue
      shift. The conversion needs 3 or 4 channels and leaves 3. */
  predicate ConvertsColour(a: Adjustment)
  {
    match a
    case Saturation(f) => f - 1.0 != 0.001 && f - 1.0 != -0.001
    case Hue(s) => s != 0.0
    case _ => false
  }

  /** How many of `kinds` are flagged. */
  function FlaggedCount(param: DistortParam, kinds: seq<Kind>): nat
  {
    if |kinds| == 0 then 0 else (if Flagged(param, kinds[0]) then 1 else 0) + FlaggedCount(param, kinds[1..])
  }

  /** How many adjustments drew a magnitude: all but the channel shuffle, which
      draws from `std::rand`. */
  function MagnitudeCount(ops: seq<Adjustment>): nat
  {
    if |ops| == 0 then 0 else (if ops[0].ReorderChannels? then 0 else 1) + MagnitudeCount(ops[1..])
  }

  /** `xs` is `ys` with some elements left out. */
  predicate Subsequence<T(==)>(xs: seq<T>, ys: seq<T>)
    decreases |ys|
  {
    if |xs| == 0 then true
    else if |ys| == 0 then false
    else if xs[0] == ys[0] then Subsequence(xs[1..], ys[1..])
    else Subsequence(xs, ys[1..])
  }

  function Kinds(ops: seq<Adjustment>): (ks: seq<Kind>)
    ensures |ks| == |ops|
    ensures forall i :: 0 <= i < |ops| ==> ks[i] == KindOf(ops[i])
  {
    if |ops| == 0 then [] else [KindOf(ops[0])] + Kinds(ops[1..])
  }

  /** The effects of `kinds` in turn: a flagged effect rolls its gate; a firing
      effect has its range checked and its magnitude drawn; a colour conversion
      needs 3 or 4 channels and leaves 3; the channel shuffle needs exactly 3.
      The result holds the adjustments and the number of draws consumed. */
  function Steps(param: DistortParam, kinds: seq<Kind>, channels: nat, draws: seq<real>): (r: Result<(seq<Adjustment>, nat)>)
    requires param.prob > 0.0 && UnitDraws(draws) && |draws| >= 2 * |kinds|
    ensures r.Ok? ==> forall a :: a in r.value.0 ==> InRange(param, a)
    ensures r.Ok? ==> Subsequence(Kinds(r.value.0), kinds)
    ensures r.Ok? ==> r.value.1 == FlaggedCount(param, kinds) + MagnitudeCount(r.value.0)
    ensures r.Ok? ==> forall a :: a in r.value.0 ==> Flagged(param, KindOf(a))
    ensures r.Err? ==> (r.error == BadRange ||
      (r.error == NotThreeChannels && channels != 3) ||
      (r.error == NotColourImage && channels != 3 && channels != 4))
    ensures (forall k :: k in kinds ==> RangeAccepted(param, k)) && channels == 3 ==> r.Ok?
  {
    if |kinds| == 0 then Ok(([], 0))
    else
      var k := kinds[0];
      if !Flagged(param, k) then
        match Steps(param, kinds[1..], channels, draws)
        case Err(e) => Err(e)
        case Ok(rest) =>
          SubsequenceSkip(Kinds(rest.0), kinds);
          Ok(rest)
      else if !Gate(param.prob, draws[0]) then
        match Steps(param, kinds[1..], channels, draws[1..])
        case Err(e) => Err(e)
        case Ok(rest) =>
          SubsequenceSkip(Kinds(rest.0), kinds);
          Ok((rest.0, rest.1 + 1))
      else if !RangeAccepted(param, k) then Err(BadRange)
      else if k == OrderKind then
        if channels != 3 then Err(NotThreeChannels)
        else
          match Steps(param, kinds[1..], channels, draws[1..])
          case Err(e) => Err(e)
          case Ok(rest) => Ok(([ReorderChannels] + rest.0, rest.1 + 1))
      else
        var a := Adjust(param, k, draws[1]);
        AdjustInRange(param, k, draws[1]);
        if ConvertsColour(a) && channels != 3 && channels != 4 then Err(NotColourImage)
        else
          match Steps(param, kinds[1..], if ConvertsColour(a) then 3 else channels, draws[2..])
          case Err(e) => Err(e)
          case Ok(rest) =>
            assert Kinds([a] + rest.0) == [k] + Kinds(rest.0);
            Ok(([a] + rest.0, rest.1 + 2))
  }

  /** Leaving out the head of the whole keeps a subsequence one. */
  lemma {:induction false} SubsequenceSkip<T>(xs: seq<T>, ys: seq<T>)
    requires |ys| > 0 && Subsequence(xs, ys[1..])
    ensures Subsequence(xs, ys)
    decreases |xs| + |ys|
  {
    if |xs| > 0 && xs[0] == ys[0] {
      if |ys| > 1 {
        SubsequenceTail(xs, ys[1..]);
      }
    }
  }

  /** Leaving out the head of a subsequence keeps it one. */
  lemma {:induction false} SubsequenceTail<T>(xs: seq<T>, ys: seq<T>)
    requires |xs| > 0 && Subsequence(xs, ys)
    ensures Subsequence(xs[1..], ys)
    decreases |xs| + |ys|
  {
    if xs[0] == ys[0] {
      SubsequenceSkip(xs[1..], ys);
    } else {
      SubsequenceTail(xs, ys[1..]);
      SubsequenceSkip(xs[1..], ys);
    }
  }

  /** A magnitude drawn from an accepted range lies in it. */
  lemma AdjustInRange(param: DistortParam, k: Kind, t: real)
    requires RangeAccepted(param, k) && 0.0 <= t <= 1.0
    ensures InRange(param, Adjust(param, k, t))
    ensures KindOf(Adjust(param, k, t)) == k
    ensures Adjust(param, k, t).ReorderChannels? <==> k == OrderKind
  {
    var r := Range(param, k);
    if k != OrderKind {
      UniformWithin(r.0, r.1, t);
    }
  }

  /** `ApplyDistort`: the first draw is always consumed; a non-positive `prob`
      then returns the input; otherwise the draw chooses the order. */
  function ApplyDistort(param: DistortParam, channels: nat, draws: seq<real>): (r: Result<(seq<Adjustment>, nat)>)
    requires UnitDraws(draws) && |draws| >= 11
    ensures param.prob <= 0.0 ==> r == Ok(([], 1))
    ensures param.prob > 0.0 && r.Ok? ==>
      var order := OrderFor(draws[0]);
      Subsequence(Kinds(r.value.0), order) &&
      (forall a :: a in r.value.0 ==> InRange(param, a) && Flagged(param, KindOf(a))) &&
      r.value.1 == 1 + FlaggedCount(param, order) + MagnitudeCount(r.value.0)
    ensures r.Err? ==> (r.error == BadRange ||
      (r.error == NotThreeChannels && channels != 3) ||
      (r.error == NotColourImage && channels != 3 && channels != 4))
    ensures (forall k :: RangeAccepted(param, k)) && channels == 3 ==> r.Ok?
  {
    if !(param.prob > 0.0) then Ok(([], 1))
    else
      var order := OrderFor(draws[0]);
      match Steps(param, order, channels, draws[1..])
      case Err(e) => Err(e)
      case Ok(s) => Ok((s.0, s.1 + 1))
  }

  // ---------------------------------------------------------------------
  // Which draws each effect reads

  /** The draws the effect `k` consumes from the head of `draws`: none when it
      is not flagged, its gate when the gate does not fire or it is the
      shuffle, and its gate and its magnitude otherwise. */
  function Consumed(param: DistortParam, k: Kind, draws: seq<real>): (c: nat)
    requires param.prob >= 0.0 && UnitDraws(draws) && |draws| >= 1
    ensures c <= 2
  {
    if !Flagged(param, k) then 0
    else if !Gate(param.prob, draws[0]) || k == OrderKind then 1
    else 2
  }

  /** The position in `draws` of the first draw the `i`-th effect of `kinds`
      may read: the draws the effects before it consumed. */
  function Offset(param: DistortParam, kinds: seq<Kind>, draws: seq<real>, i: nat): (o: nat)
    requires param.prob >= 0.0 && UnitDraws(draws) && |draws| >= 2 * |kinds| && i <= |kinds|
    ensures o <= 2 * i
    decreases i
  {
    if i == 0 then 0
    else
      var c := Consumed(param, kinds[0], draws);
      c + Offset(param, kinds[1..], draws[c..], i - 1)
  }

  predicate Distinct<T(==)>(ys: seq<T>)
  {
    forall p, q :: 0 <= p < q < |ys| ==> ys[p] != ys[q]
  }

  /** The adjustments the effect `k` adds when its gate is the head of `draws`. */
  function Head(param: DistortParam, k: Kind, draws: seq<real>): seq<Adjustment>
    requires param.prob >= 0.0 && UnitDraws(draws) && |draws| >= 2
  {
    if !Flagged(param, k) || !Gate(param.prob, draws[0]) then []
    else if k == OrderKind then [ReorderChannels]
    else [Adjust(param, k, draws[1])]
  }

  /** The channel count after the effect `k`: 3 once a colour conversion ran. */
  function ChannelsAfter(param: DistortParam, k: Kind, draws: seq<real>, channels: nat): nat
    requires param.prob >= 0.0 && UnitDraws(draws) && |draws| >= 2
  {
    if Consumed(param, k, draws) == 2 && ConvertsColour(Adjust(param, k, draws[1])) then 3 else channels
  }

  /** A successful schedule is the head effect's adjustments followed by the
      schedule of the rest on the draws the head left. */
  lemma StepsUnfold(param: DistortParam, kinds: seq<Kind>, channels: nat, draws: seq<real>)
    requires param.prob > 0.0 && UnitDraws(draws) && |draws| >= 2 * |kinds| && |kinds| > 0
    requires Steps(param, kinds, channels, draws).Ok?
    ensures var c := Consumed(param, kinds[0], draws);
      var rest := Steps(param, kinds[1..], ChannelsAfter(param, kinds[0], draws, channels), draws[c..]);
      rest.Ok? &&
      Steps(param, kinds, channels, draws).value.0 == Head(param, kinds[0], draws) + rest.value.0
  {
    assert draws[0..] == draws;
  }

  /** The effect `x` follows its gate in `ops`: it runs exactly when it is
      flagged and the gate draw `gate` passes `[1 - prob, prob]`, and when it
      runs and is not the channel shuffle, its adjustment has the magnitude the
      draw `magnitude` gives it. */
  predicate FollowsGate(param: DistortParam, x: Kind, ops: seq<Adjustment>, gate: real, magnitude: real)
    requires param.prob >= 0.0 && 0.0 <= gate <= 1.0
  {
    (x in Kinds(ops) <==> Flagged(param, x) && Gate(param.prob, gate)) &&
    (x in Kinds(ops) && x != OrderKind ==> Adjust(param, x, magnitude) in ops)
  }

  /** The first effect of the schedule reads the head of the draws. */
  lemma FirstFollowsGate(param: DistortParam, kinds: seq<Kind>, channels: nat, draws: seq<real>)
    requires param.prob > 0.0 && UnitDraws(draws) && |draws| >= 2 * |kinds|
    requires Distinct(kinds) && 0 < |kinds|
    requires Steps(param, kinds, channels, draws).Ok?
    ensures FollowsGate(param, kinds[0], Steps(param, kinds, channels, draws).value.0, draws[0], draws[1])
  {
    var k := kinds[0];
    var c := Consumed(param, k, draws);
    StepsUnfold(param, kinds, channels, draws);
    var ops := Steps(param, kinds, channels, draws).value.0;
    var head := Head(param, k, draws);
    var rest := Steps(param, kinds[1..], ChannelsAfter(param, k, draws, channels), draws[c..]).value.0;
    assert ops == head + rest;
    KindsAppend(head, rest);
    DistinctHead(kinds);
    SubsequenceExcludes(Kinds(rest), kinds[1..], k);
    HeadGate(param, k, draws);
    assert k in Kinds(ops) <==> k in Kinds(head);
  }

  /** The `i`-th effect reads its draws past those the head consumed, at its
      offset in the rest of the schedule. */
  lemma OffsetShift(param: DistortParam, kinds: seq<Kind>, draws: seq<real>, i: nat)
    requires param.prob >= 0.0 && UnitDraws(draws) && |draws| >= 2 * |kinds| && 0 < i < |kinds|
    ensures var c := Consumed(param, kinds[0], draws);
      var o := Offset(param, kinds[1..], draws[c..], i - 1);
      Offset(param, kinds, draws, i) == c + o && o + 1 < |draws[c..]| &&
      draws[c..][o] == draws[c + o] && draws[c..][o + 1] == draws[c + o + 1] &&
      kinds[1..][i - 1] == kinds[i]
  {
  }

  /** An effect that follows its gate in the rest still does once adjustments
      of another kind `k` are put before it. */
  lemma FollowsGatePrepend(param: DistortParam, head: seq<Adjustment>, rest: seq<Adjustment>, k: Kind, x: Kind,
                           gate: real, magnitude: real)
    requires param.prob >= 0.0 && 0.0 <= gate <= 1.0
    requires forall y :: y in Kinds(head) ==> y == k
    requires x != k
    requires FollowsGate(param, x, rest, gate, magnitude)
    ensures FollowsGate(param, x, head + rest, gate, magnitude)
  {
    KindsAppend(head, rest);
  }

  /** The head effect adds one adjustment of its own kind when flagged and its
      gate fires, with the next draw as its magnitude, and none otherwise. */
  lemma HeadGate(param: DistortParam, k: Kind, draws: seq<real>)
    requires param.prob >= 0.0 && UnitDraws(draws) && |draws| >= 2
    ensures forall x :: x in Kinds(Head(param, k, draws)) ==> x == k
    ensures k in Kinds(Head(param, k, draws)) <==> Flagged(param, k) && Gate(param.prob, draws[0])
    ensures k != OrderKind && Flagged(param, k) && Gate(param.prob, draws[0]) ==>
      Head(param, k, draws) == [Adjust(param, k, draws[1])]
  {
    var h := Head(param, k, draws);
    if h != [] {
      assert Kinds(h) == [KindOf(h[0])];
      assert KindOf(Adjust(param, k, draws[1])) == k;
    }
  }

  lemma DistinctTail<T>(ys: seq<T>)
    requires Distinct(ys) && |ys| > 0
    ensures Distinct(ys[1..])
  {
    forall p, q | 0 <= p < q < |ys[1..]| ensures ys[1..][p] != ys[1..][q] {
      assert ys[1..][p] == ys[p + 1] && ys[1..][q] == ys[q + 1];
    }
  }

  lemma DistinctHead<T>(ys: seq<T>)
    requires Distinct(ys) && |ys| > 0
    ensures ys[0] !in ys[1..]
  {
    forall m | 0 <= m < |ys[1..]| ensures ys[1..][m] != ys[0] {
      assert ys[1..][m] == ys[m + 1];
    }
  }

  /** The kinds of two lists of adjustments joined. */
  lemma KindsAppend(xs: seq<Adjustment>, ys: seq<Adjustment>)
    ensures Kinds(xs + ys) == Kinds(xs) + Kinds(ys)
  {
    var joined, parts := Kinds(xs + ys), Kinds(xs) + Kinds(ys);
    forall i | 0 <= i < |joined|
      ensures joined[i] == parts[i]
    {
      if i < |xs| {
        assert (xs + ys)[i] == xs[i];
      } else {
        assert (xs + ys)[i] == ys[i - |xs|];
      }
    }
  }

  /** What the whole does not hold, a subsequence does not hold either. */
  lemma SubsequenceExcludes<T>(xs: seq<T>, ys: seq<T>, x: T)
    requires Subsequence(xs, ys) && x !in ys
    ensures x !in xs
  {
    if x in xs {
      var i :| 0 <= i < |xs| && xs[i] == x;
      SubsequenceMembers(xs, ys, i);
    }
  }

  /** The draws consumed are the offset past the last effect. */
  lemma {:induction false} StepsUseOffset(param: DistortParam, kinds: seq<Kind>, channels: nat, draws: seq<real>)
    requires param.prob > 0.0 && UnitDraws(draws) && |draws| >= 2 * |kinds|
    requires Steps(param, kinds, channels, draws).Ok?
    ensures Steps(param, kinds, channels, draws).value.1 == Offset(param, kinds, draws, |kinds|)
    decreases |kinds|
  {
    if |kinds| > 0 {
      var c := Consumed(param, kinds[0], draws);
      assert draws[0..] == draws;
      StepsUseOffset(param, kinds[1..], ChannelsAfter(param, kinds[0], draws, channels), draws[c..]);
    }
  }

  /** A successful `ApplyDistort` with a positive `prob` is the schedule of the
      chosen order on the draws after the order draw, plus that draw. */
  lemma DistortIsSteps(param: DistortParam, channels: nat, draws: seq<real>)
    requires UnitDraws(draws) && |draws| >= 11 && param.prob > 0.0
    requires ApplyDistort(param, channels, draws).Ok?
    ensures var steps := Steps(param, OrderFor(draws[0]), channels, draws[1..]);
      steps.Ok? && ApplyDistort(param, channels, draws).value == (steps.value.0, steps.value.1 + 1)
  {
  }

  // ---------------------------------------------------------------------
  // When the schedule fails

  /** The channel count the `i`-th effect of `kinds` sees: 3 once an earlier
      colour conversion ran, the input's otherwise. */
  function ChannelsAt(param: DistortParam, kinds: seq<Kind>, channels: nat, draws: seq<real>, i: nat): nat
    requires param.prob >= 0.0 && UnitDraws(draws) && |draws| >= 2 * |kinds| && i <= |kinds|
    decreases i
  {
    if i == 0 then channels
    else
      var c := Consumed(param, kinds[0], draws);
      ChannelsAt(param, kinds[1..], ChannelsAfter(param, kinds[0], draws, channels), draws[c..], i - 1)
  }

  /** The effect `k`, with gate draw `gate` and magnitude draw `magnitude`, fails
      on an image of `n` channels: it is flagged, its gate fires, and its range
      is rejected, or it is the channel shuffle on an image without 3 channels,
      or a colour conversion on an image with neither 3 nor 4. */
  predicate EffectFails(param: DistortParam, k: Kind, gate: real, magnitude: real, n: nat)
    requires param.prob >= 0.0 && 0.0 <= gate <= 1.0
  {
    Flagged(param, k) && Gate(param.prob, gate) &&
    (!RangeAccepted(param, k) ||
     (k == OrderKind && n != 3) ||
     (k != OrderKind && ConvertsColour(Adjust(param, k, magnitude)) && n != 3 && n != 4))
  }

  /** The `i`-th effect of `kinds` fails if it is reached, reading the draws at
      its offset and seeing the channels the effects before it left. */
  predicate FailsAt(param: DistortParam, kinds: seq<Kind>, channels: nat, draws: seq<real>, i: nat)
    requires param.prob >= 0.0 && UnitDraws(draws) && |draws| >= 2 * |kinds| && i < |kinds|
  {
    var o := Offset(param, kinds, draws, i);
    EffectFails(param, kinds[i], draws[o], draws[o + 1], ChannelsAt(param, kinds, channels, draws, i))
  }

  /** A later effect fails in the whole schedule exactly when it fails in the
      schedule of the rest, run on the draws and channels the head left. */
  lemma FailsAtShift(param: DistortParam, kinds: seq<Kind>, channels: nat, draws: seq<real>, i: nat)
    requires param.prob >= 0.0 && UnitDraws(draws) && |draws| >= 2 * |kinds| && 0 < i < |kinds|
    ensures var c := Consumed(param, kinds[0], draws);
      FailsAt(param, kinds, channels, draws, i) <==>
      FailsAt(param, kinds[1..], ChannelsAfter(param, kinds[0], draws, channels), draws[c..], i - 1)
  {
    var c := Consumed(param, kinds[0], draws);
    var next := ChannelsAfter(param, kinds[0], draws, channels);
    var o := Offset(param, kinds[1..], draws[c..], i - 1);
    assert Offset(param, kinds, draws, i) == c + o;
    assert ChannelsAt(param, kinds, channels, draws, i) == ChannelsAt(param, kinds[1..], next, draws[c..], i - 1);
    assert kinds[1..][i - 1] == kinds[i];
    assert draws[c..][o] == draws[c + o] && draws[c..][o + 1] == draws[c + o + 1];
  }

  /** The schedule fails exactly when its first effect fails or the rest of
      it fails on the draws and channels that effect left. */
  lemma StepsErrUnfold(param: DistortParam, kinds: seq<Kind>, channels: nat, draws: seq<real>)
    requires param.prob > 0.0 && UnitDraws(draws) && |draws| >= 2 * |kinds| && |kinds| > 0
    ensures var c := Consumed(param, kinds[0], draws);
      Steps(param, kinds, channels, draws).Err? <==>
      FailsAt(param, kinds, channels, draws, 0) ||
      Steps(param, kinds[1..], ChannelsAfter(param, kinds[0], draws, channels), draws[c..]).Err?
  {
    assert draws[0..] == draws;
  }

  /** The schedule fails exactly when one of its effects fails: a range, a
      channel count or a colour conversion matters only for an effect that is
      flagged and whose gate fires. */
  lemma {:induction false} StepsFailIff(param: DistortParam, kinds: seq<Kind>, channels: nat, draws: seq<real>)
    requires param.prob > 0.0 && UnitDraws(draws) && |draws| >= 2 * |kinds|
    ensures Steps(param, kinds, channels, draws).Err? <==>
      exists i :: 0 <= i < |kinds| && FailsAt(param, kinds, channels, draws, i)
    decreases |kinds|
  {
    if |kinds| > 0 {
      var k := kinds[0];
      var c := Consumed(param, k, draws);
      var next := ChannelsAfter(param, k, draws, channels);
      StepsErrUnfold(param, kinds, channels, draws);
      StepsFailIff(param, kinds[1..], next, draws[c..]);
      if Steps(param, kinds, channels, draws).Err? {
        if !FailsAt(param, kinds, channels, draws, 0) {
          assert Steps(param, kinds[1..], next, draws[c..]).Err?;
          var j :| 0 <= j < |kinds[1..]| && FailsAt(param, kinds[1..], next, draws[c..], j);
          FailsAtShift(param, kinds, channels, draws, j + 1);
        }
      } else {
        forall i | 0 <= i < |kinds|
          ensures !FailsAt(param, kinds, channels, draws, i)
        {
          if i > 0 {
            FailsAtShift(param, kinds, channels, draws, i);
          }
        }
      }
    }
  }

  /** `ApplyDistort` fails exactly when an effect of the chosen order fails
      after the order draw. */
  lemma DistortFailIff(param: DistortParam, channels: nat, draws: seq<real>)
    requires UnitDraws(draws) && |draws| >= 11 && param.prob > 0.0
    ensures var order := OrderFor(draws[0]);
      ApplyDistort(param, channels, draws).Err? <==>
      exists i :: 0 <= i < 5 && FailsAt(param, order, channels, draws[1..], i)
  {
    var order := OrderFor(draws[0]);
    StepsFailIff(param, order, channels, draws[1..]);
  }

  /** Brightness and contrast with accepted ranges never fail, whatever the
      channel count and the draws: neither converts the image nor shuffles
      its channels. */
  lemma BrightnessContrastAnyChannels(param: DistortParam, channels: nat, draws: seq<real>)
    requires UnitDraws(draws) && |draws| >= 11
    requires forall k :: Flagged(param, k) ==> k == BrightnessKind || k == ContrastKind
    requires RangeAccepted(param, BrightnessKind) && RangeAccepted(param, ContrastKind)
    ensures ApplyDistort(param, channels, draws).Ok?
  {
    if param.prob > 0.0 {
      DistortFailIff(param, channels, draws);
    }
  }

  // ---------------------------------------------------------------------
  // Properties of the schedule

  /** No effect runs twice: both orders list each kind once. */
  lemma EachEffectOnce(param: DistortParam, channels: nat, draws: seq<real>, i: nat, j: nat)
    requires UnitDraws(draws) && |draws| >= 11
    requires ApplyDistort(param, channels, draws).Ok?
    requires i < j < |ApplyDistort(param, channels, draws).value.0|
    ensures var ops := ApplyDistort(param, channels, draws).value.0;
      KindOf(ops[i]) != KindOf(ops[j])
  {
    var ops := ApplyDistort(param, channels, draws).value.0;
    var order := OrderFor(draws[0]);
    SubsequenceOfDistinct(Kinds(ops), order, i, j);
  }

  /** A kind appears at most once in an order, so each effect runs at most once. */
  lemma {:induction false} SubsequenceOfDistinct<T>(xs: seq<T>, ys: seq<T>, i: nat, j: nat)
    requires Subsequence(xs, ys)
    requires forall p, q :: 0 <= p < q < |ys| ==> ys[p] != ys[q]
    requires i < j < |xs|
    ensures xs[i] != xs[j]
    decreases |ys|
  {
    if xs[0] == ys[0] {
      if i == 0 {
        SubsequenceMembers(xs[1..], ys[1..], j - 1);
        var m :| 0 <= m < |ys[1..]| && ys[1..][m] == xs[j];
        assert ys[m + 1] == xs[j];
      } else {
        assert forall p, q :: 0 <= p < q < |ys[1..]| ==> ys[1..][p] != ys[1..][q] by {
          forall p, q | 0 <= p < q < |ys[1..]| ensures ys[1..][p] != ys[1..][q] {
            assert ys[1..][p] == ys[p + 1] && ys[1..][q] == ys[q + 1];
          }
        }
        SubsequenceOfDistinct(xs[1..], ys[1..], i - 1, j - 1);
      }
    } else {
      assert forall p, q :: 0 <= p < q < |ys[1..]| ==> ys[1..][p] != ys[1..][q] by {
        forall p, q | 0 <= p < q < |ys[1..]| ensures ys[1..][p] != ys[1..][q] {
          assert ys[1..][p] == ys[p + 1] && ys[1..][q] == ys[q + 1];
        }
      }
      SubsequenceOfDistinct(xs, ys[1..], i, j);
    }
  }

  /** Every element of a subsequence occurs in the whole. */
  lemma {:induction false} SubsequenceMembers<T>(xs: seq<T>, ys: seq<T>, i: nat)
    requires Subsequence(xs, ys) && i < |xs|
    ensures exists m :: 0 <= m < |ys| && ys[m] == xs[i]
    decreases |ys|
  {
    if xs[0] == ys[0] {
      if i > 0 {
        SubsequenceMembers(xs[1..], ys[1..], i - 1);
        var m :| 0 <= m < |ys[1..]| && ys[1..][m] == xs[1..][i - 1];
        assert ys[m + 1] == xs[i];
      }
    } else {
      SubsequenceMembers(xs, ys[1..], i);
      var m :| 0 <= m < |ys[1..]| && ys[1..][m] == xs[i];
      assert ys[m + 1] == xs[i];
    }
  }

  /** With no effect flagged, a positive `prob` still uses only the first draw. */
  lemma NothingFlaggedUsesOneDraw(param: DistortParam, channels: nat, draws: seq<real>)
    requires UnitDraws(draws) && |draws| >= 11 && param.prob > 0.0
    requires !param.allEffects && param.enabled == {}
    ensures ApplyDistort(param, channels, draws) == Ok(([], 1))
  {
    var order := OrderFor(draws[0]);
    assert Steps(param, order[4..], channels, draws[1..]) == Ok(([], 0));
    assert Steps(param, order[3..], channels, draws[1..]) == Ok(([], 0));
    assert Steps(param, order[2..], channels, draws[1..]) == Ok(([], 0));
    assert Steps(param, order[1..], channels, draws[1..]) == Ok(([], 0));
  }

  /** The channel shuffle of a flagged, firing effect on an image without three
      channels is fatal: the first effect of order A rolled with the shuffle
      the only flag shows it. */
  lemma ShuffleNeedsThreeChannels(param: DistortParam, draws: seq<real>)
    requires UnitDraws(draws) && |draws| >= 11 && param.prob > 0.0
    requires !param.allEffects && param.enabled == {OrderKind}
    requires Gate(param.prob, draws[1])
    ensures ApplyDistort(param, 1, draws) == Err(NotThreeChannels)
  {
    var order := OrderFor(draws[0]);
    assert order[4..] == [OrderKind];
    assert Steps(param, order[4..], 1, draws[1..]) == Err(NotThreeChannels);
    assert Steps(param, order[3..], 1, draws[1..]) == Err(NotThreeChannels);
    assert Steps(param, order[2..], 1, draws[1..]) == Err(NotThreeChannels);
    assert Steps(param, order[1..], 1, draws[1..]) == Err(NotThreeChannels);
  }

  /** A saturation factor other than 1 on a one-channel image is fatal: the
      saturation as the only flag, firing on its gate draw, shows it. */
  lemma SaturationNeedsColourImage(param: DistortParam, draws: seq<real>)
    requires UnitDraws(draws) && |draws| >= 11 && param.prob > 0.0
    requires !param.allEffects && param.enabled == {SaturationKind}
    requires param.saturationLower == 2.0 && param.saturationUpper == 2.0
    requires Gate(param.prob, draws[1])
    ensures ApplyDistort(param, 1, draws) == Err(NotColourImage)
  {
    var order := OrderFor(draws[0]);
    assert Uniform(2.0, 2.0, draws[2]) == 2.0;
    if draws[0] > 0.5 {
      assert order[2..] == [SaturationKind, HueKind, OrderKind];
      assert Steps(param, order[2..], 1, draws[1..]) == Err(NotColourImage);
      assert Steps(param, order[1..], 1, draws[1..]) == Err(NotColourImage);
    } else {
      assert order[1..] == [SaturationKind, HueKind, ContrastKind, OrderKind];
      assert Steps(param, order[1..], 1, draws[1..]) == Err(NotColourImage);
    }
  }
}
