/** The effect schedule of `ApplyNoise`: which effects run, in which order,
    and which uniform draws their gates consume. Each flagged effect rolls the
    die `[1 - prob, prob]` once, in the fixed order of the source, and runs
    when it shows 1; the JPEG round trip is not gated. The pixel kernels are
    not modelled: the schedule names them as operations. */
module NoiseChain {
  import opened Common
  import opened WeightedDie
  import FillValues
  import SaltPepper

  /** The gated effects of `NoiseParameter`. */
  datatype Effect =
    | Decolorize | GaussBlur | HistEq | Clahe | Erode | Posterize | Inverse
    | SaltPepperNoise | ConvertToHsv | ConvertToLab

  /** The fields of `NoiseParameter` the schedule reads. */
  datatype NoiseParam = NoiseParam(
    prob: real,
    enabled: set<Effect>,
    allEffects: bool,
    jpeg: int,
    saltValues: seq<byte>,
    fraction: real)

  /** The image operations `ApplyNoise` performs. */
  datatype Op =
    | Gray | Blur | Equalize | ClaheOp | JpegOp(quality: int) | ErodeOp
    | PosterizeOp | Invert | Noise(count: int, fill: seq<byte>) | ToHsv | ToLab

  /** What `ApplyNoise` does: its operations in order, and how many draws its
      gates consumed. */
  datatype NoisePlan = NoisePlan(ops: seq<Op>, used: nat)

  /** The order in which the gates roll. */
  function GatedOrder(): seq<Effect>
  {
    [Decolorize, GaussBlur, HistEq, Clahe, Erode, Posterize, Inverse,
     SaltPepperNoise, ConvertToHsv, ConvertToLab]
  }

  /** The effects to roll for: `all_effects` turns every flag on. */
  function Flags(param: NoiseParam): (flags: set<Effect>)
    ensures param.allEffects ==> forall k :: 0 <= k < |GatedOrder()| ==> GatedOrder()[k] in flags
    ensures !param.allEffects ==> flags == param.enabled
  {
    if param.allEffects then set k | 0 <= k < |GatedOrder()| :: GatedOrder()[k] else param.enabled
  }

  /** How many of `order` are flagged, i.e. how many rolls they consume. */
  function CountFlagged(order: seq<Effect>, flags: set<Effect>): (n: nat)
    ensures n <= |order|
  {
    if |order| == 0 then 0
    else (if order[0] in flags then 1 else 0) + CountFlagged(order[1..], flags)
  }

  /** The gate rolls: each flagged effect of `order` consumes the next draw and
      fires when the die `[1 - prob, prob]` shows 1. */
  function Gates(order: seq<Effect>, flags: set<Effect>, prob: real, draws: seq<real>): (r: (seq<bool>, nat))
    requires UnitDraws(draws)
    requires prob >= 0.0 || CountFlagged(order, flags) == 0
    requires CountFlagged(order, flags) <= |draws|
    ensures |r.0| == |order|
    ensures r.1 == CountFlagged(order, flags)
  {
    if |order| == 0 then ([], 0)
    else if order[0] in flags then
      var rest := Gates(order[1..], flags, prob, draws[1..]);
      ([Gate(prob, draws[0])] + rest.0, rest.1 + 1)
    else
      var rest := Gates(order[1..], flags, prob, draws);
      ([false] + rest.0, rest.1)
  }

  /** The `k`-th effect fires exactly when it is flagged and the draw after
      those of the flagged effects before it passes the gate. */
  lemma {:induction false} GatesConsumeInOrder(order: seq<Effect>, flags: set<Effect>, prob: real, draws: seq<real>, k: nat)
    requires UnitDraws(draws)
    requires prob >= 0.0 || CountFlagged(order, flags) == 0
    requires CountFlagged(order, flags) <= |draws|
    requires k < |order|
    ensures CountFlagged(order[..k], flags) < |draws| || order[k] !in flags
    ensures Gates(order, flags, prob, draws).0[k] <==>
      order[k] in flags && prob >= 0.0 && Gate(prob, draws[CountFlagged(order[..k], flags)])
    decreases k
  {
    CountPrefix(order, flags, k);
    if k > 0 {
      assert order[..k][1..] == order[1..][..k - 1];
      if order[0] in flags {
        GatesConsumeInOrder(order[1..], flags, prob, draws[1..], k - 1);
      } else {
        GatesConsumeInOrder(order[1..], flags, prob, draws, k - 1);
      }
    }
  }

  /** A prefix consumes no more rolls than the whole, and the effect at `k` one
      more when it is flagged. */
  lemma {:induction false} CountPrefix(order: seq<Effect>, flags: set<Effect>, k: nat)
    requires k < |order|
    ensures CountFlagged(order[..k], flags) + (if order[k] in flags then 1 else 0) <= CountFlagged(order, flags)
    decreases k
  {
    if k > 0 {
      assert order[..k][1..] == order[1..][..k - 1];
      CountPrefix(order[1..], flags, k - 1);
    }
  }

  /** An operation and whether it runs, in the order of the source. */
  function When(items: seq<(bool, Op)>): (ops: seq<Op>)
    ensures forall x :: x in ops <==> exists k :: 0 <= k < |items| && items[k].0 && items[k].1 == x
  {
    if |items| == 0 then []
    else
      var rest := When(items[1..]);
      assert forall k :: 1 <= k < |items| ==> items[1..][k - 1] == items[k];
      (if items[0].0 then [items[0].1] else []) + rest
  }

  /** The position of an operation in the source's order. */
  function Rank(op: Op): nat
  {
    match op
    case Gray => 0 case Blur => 1 case Equalize => 2 case ClaheOp => 3 case JpegOp(_) => 4
    case ErodeOp => 5 case PosterizeOp => 6 case Invert => 7 case Noise(_, _) => 8
    case ToHsv => 9 case ToLab => 10
  }

  predicate Ranked(ops: seq<Op>)
  {
    forall i, j :: 0 <= i < j < |ops| ==> Rank(ops[i]) < Rank(ops[j])
  }

  /** Operations listed in increasing rank run in increasing rank. */
  lemma {:induction false} WhenRanked(items: seq<(bool, Op)>)
    requires forall i, j :: 0 <= i < j < |items| ==> Rank(items[i].1) < Rank(items[j].1)
    ensures Ranked(When(items))
  {
    if |items| > 0 {
      WhenRanked(items[1..]);
      var rest := When(items[1..]);
      forall x | x in rest
        ensures Rank(items[0].1) < Rank(x)
      {
        var k :| 0 <= k < |items[1..]| && items[1..][k].0 && items[1..][k].1 == x;
        assert items[1..][k] == items[k + 1];
      }
    }
  }

  /** Each operation of `ApplyNoise` in the source's order, with its condition:
      the gate `f[k]` of the `k`-th effect, the channel tests, the JPEG quality. */
  function PlanItems(f: seq<bool>, decolorizeChannels: nat, channels: nat, jpeg: int, noise: (int, seq<byte>)): seq<(bool, Op)>
    requires |f| == 10
  {
    [(f[0] && decolorizeChannels > 1, Gray),
     (f[1], Blur),
     (f[2], Equalize),
     (f[3], ClaheOp),
     (jpeg > 0 && channels > 1, JpegOp(jpeg)),
     (f[4], ErodeOp),
     (f[5], PosterizeOp),
     (f[6], Invert),
     (f[7], Noise(noise.0, noise.1)),
     (f[8] && channels > 1, ToHsv),
     (f[9] && channels > 1, ToLab)]
  }

  /** Each operation runs exactly under its condition. */
  lemma PlanRuns(f: seq<bool>, decolorizeChannels: nat, channels: nat, jpeg: int, noise: (int, seq<byte>))
    requires |f| == 10
    ensures var ops := When(PlanItems(f, decolorizeChannels, channels, jpeg, noise));
      (Gray in ops <==> f[0] && decolorizeChannels > 1) &&
      (Blur in ops <==> f[1]) &&
      (Equalize in ops <==> f[2]) &&
      (ClaheOp in ops <==> f[3]) &&
      (JpegOp(jpeg) in ops <==> jpeg > 0 && channels > 1) &&
      (ErodeOp in ops <==> f[4]) &&
      (PosterizeOp in ops <==> f[5]) &&
      (Invert in ops <==> f[6]) &&
      ((exists n, v :: Noise(n, v) in ops) <==> f[7]) &&
      (ToHsv in ops <==> f[8] && channels > 1) &&
      (ToLab in ops <==> f[9] && channels > 1)
  {
    var items := PlanItems(f, decolorizeChannels, channels, jpeg, noise);
    assert forall k :: 0 <= k < |items| ==> Rank(items[k].1) == k;
    WhenByRank(items);
    if f[7] {
      assert Noise(noise.0, noise.1) in When(items);
    }
  }

  /** The salt-and-pepper operation, when it runs, is the one with the prepared
      count and fill colour, and no other. */
  lemma PlanNoise(f: seq<bool>, decolorizeChannels: nat, channels: nat, jpeg: int, noise: (int, seq<byte>))
    requires |f| == 10
    ensures var ops := When(PlanItems(f, decolorizeChannels, channels, jpeg, noise));
      (f[7] ==> Noise(noise.0, noise.1) in ops) &&
      (forall n, v :: Noise(n, v) in ops ==> (n, v) == noise)
  {
    var items := PlanItems(f, decolorizeChannels, channels, jpeg, noise);
    assert forall k :: 0 <= k < |items| ==> Rank(items[k].1) == k;
    WhenByRank(items);
    assert Rank(Noise(noise.0, noise.1)) == 8;
  }

  /** The operations run in the source's order. */
  lemma PlanOrdered(f: seq<bool>, decolorizeChannels: nat, channels: nat, jpeg: int, noise: (int, seq<byte>))
    requires |f| == 10
    ensures Ranked(When(PlanItems(f, decolorizeChannels, channels, jpeg, noise)))
  {
    var items := PlanItems(f, decolorizeChannels, channels, jpeg, noise);
    assert forall k :: 0 <= k < |items| ==> Rank(items[k].1) == k;
    WhenRanked(items);
  }

  /** When the `k`-th item has rank `k`, an operation runs exactly when the item
      of its rank holds it and its condition is true. */
  lemma WhenByRank(items: seq<(bool, Op)>)
    requires forall k :: 0 <= k < |items| ==> Rank(items[k].1) == k
    ensures forall x :: x in When(items) <==> Rank(x) < |items| && items[Rank(x)].0 && items[Rank(x)].1 == x
  {
  }

  /** The schedule, with the channel count the decolorize test reads passed in
      as `decolorizeChannels`. Images have 1 or 3 channels. */
  function ScheduleWith(param: NoiseParam, channels: nat, cols: nat, rows: nat, draws: seq<real>,
                        decolorizeChannels: nat): Result<NoisePlan>
    requires channels == 1 || channels == 3
    requires UnitDraws(draws)
    requires param.prob >= 0.0 || CountFlagged(GatedOrder(), Flags(param)) == 0
    requires CountFlagged(GatedOrder(), Flags(param)) <= |draws|
  {
    if param.prob == 0.0 then Ok(NoisePlan([], 0))
    else
      var g := Gates(GatedOrder(), Flags(param), param.prob, draws);
      var f := g.0;
      var noise := if f[7] then SaltPepper.NoiseSetup(param.saltValues, channels, cols, rows, param.fraction)
                   else Ok((0, []));
      match noise
      case Err(e) => Err(e)
      case Ok(s) =>
        Ok(NoisePlan(When(PlanItems(f, decolorizeChannels, channels, param.jpeg, s)), g.1))
  }

  /** `ApplyNoise` as written: the decolorize test reads the channel count of
      the still-empty output image, which is 1. */
  function ApplyNoise(param: NoiseParam, channels: nat, cols: nat, rows: nat, draws: seq<real>): Result<NoisePlan>
    requires channels == 1 || channels == 3
    requires UnitDraws(draws)
    requires param.prob >= 0.0 || CountFlagged(GatedOrder(), Flags(param)) == 0
    requires CountFlagged(GatedOrder(), Flags(param)) <= |draws|
  {
    ScheduleWith(param, channels, cols, rows, draws, 1)
  }

  /** `ApplyNoise` with the decolorize test reading the input image. */
  function ApplyNoiseCorrected(param: NoiseParam, channels: nat, cols: nat, rows: nat, draws: seq<real>): Result<NoisePlan>
    requires channels == 1 || channels == 3
    requires UnitDraws(draws)
    requires param.prob >= 0.0 || CountFlagged(GatedOrder(), Flags(param)) == 0
    requires CountFlagged(GatedOrder(), Flags(param)) <= |draws|
  {
    ScheduleWith(param, channels, cols, rows, draws, channels)
  }

  /** Whether the gate of the `k`-th effect of the order fires. */
  predicate Fires(param: NoiseParam, draws: seq<real>, k: nat)
    requires k < |GatedOrder()|
    requires CountFlagged(GatedOrder(), Flags(param)) <= |draws|
  {
    var flags := Flags(param);
    CountPrefix(GatedOrder(), flags, k);
    GatedOrder()[k] in flags && param.prob >= 0.0 && 0.0 <= draws[CountFlagged(GatedOrder()[..k], flags)] <= 1.0 &&
    Gate(param.prob, draws[CountFlagged(GatedOrder()[..k], flags)])
  }

  // ---------------------------------------------------------------------
  // Properties of the schedule

  /** With `prob == 0` the input comes back untouched and no draw is used. */
  lemma ZeroProbabilityIsIdentity(param: NoiseParam, channels: nat, cols: nat, rows: nat, draws: seq<real>, decolorizeChannels: nat)
    requires channels == 1 || channels == 3
    requires UnitDraws(draws)
    requires CountFlagged(GatedOrder(), Flags(param)) <= |draws|
    requires param.prob == 0.0
    ensures ScheduleWith(param, channels, cols, rows, draws, decolorizeChannels) == Ok(NoisePlan([], 0))
  {
  }

  /** Otherwise the schedule fails only on a rejected salt-and-pepper value
      count when that effect fires; it consumes one draw per flagged effect;
      its operations run in the source's order; and each effect runs exactly
      when its gate fires (HSV and Lab only on colour images), JPEG whenever a
      quality is set on a colour image. The salt-and-pepper operation carries
      the count and fill colour `NoiseSetup` prepares. */
  lemma ScheduleFollowsGates(param: NoiseParam, channels: nat, cols: nat, rows: nat, draws: seq<real>, decolorizeChannels: nat)
    requires channels == 1 || channels == 3
    requires UnitDraws(draws)
    requires param.prob >= 0.0 || CountFlagged(GatedOrder(), Flags(param)) == 0
    requires CountFlagged(GatedOrder(), Flags(param)) <= |draws|
    requires param.prob != 0.0
    ensures var r := ScheduleWith(param, channels, cols, rows, draws, decolorizeChannels);
      r.Err? <==> Fires(param, draws, 7) && !FillValues.CountAccepted(param.saltValues, channels)
    ensures var r := ScheduleWith(param, channels, cols, rows, draws, decolorizeChannels);
      r.Ok? ==>
        r.value.used == CountFlagged(GatedOrder(), Flags(param)) &&
        Ranked(r.value.ops) &&
        (Gray in r.value.ops <==> Fires(param, draws, 0) && decolorizeChannels > 1) &&
        (Blur in r.value.ops <==> Fires(param, draws, 1)) &&
        (Equalize in r.value.ops <==> Fires(param, draws, 2)) &&
        (ClaheOp in r.value.ops <==> Fires(param, draws, 3)) &&
        (JpegOp(param.jpeg) in r.value.ops <==> param.jpeg > 0 && channels > 1) &&
        (ErodeOp in r.value.ops <==> Fires(param, draws, 4)) &&
        (PosterizeOp in r.value.ops <==> Fires(param, draws, 5)) &&
        (Invert in r.value.ops <==> Fires(param, draws, 6)) &&
        ((exists n, v :: Noise(n, v) in r.value.ops) <==> Fires(param, draws, 7)) &&
        (ToHsv in r.value.ops <==> Fires(param, draws, 8) && channels > 1) &&
        (ToLab in r.value.ops <==> Fires(param, draws, 9) && channels > 1)
    ensures var r := ScheduleWith(param, channels, cols, rows, draws, decolorizeChannels);
      var s := SaltPepper.NoiseSetup(param.saltValues, channels, cols, rows, param.fraction);
      r.Ok? && Fires(param, draws, 7) ==>
        s.Ok? && Noise(s.value.0, s.value.1) in r.value.ops &&
        (forall n, v :: Noise(n, v) in r.value.ops ==> (n, v) == s.value)
  {
    var flags := Flags(param);
    var g := Gates(GatedOrder(), flags, param.prob, draws);
    forall k | 0 <= k < 10
      ensures g.0[k] <==> Fires(param, draws, k)
    {
      GatesConsumeInOrder(GatedOrder(), flags, param.prob, draws, k);
    }
    var noise := if g.0[7] then SaltPepper.NoiseSetup(param.saltValues, channels, cols, rows, param.fraction)
                 else Ok((0, []));
    if noise.Ok? {
      PlanRuns(g.0, decolorizeChannels, channels, param.jpeg, noise.value);
      PlanOrdered(g.0, decolorizeChannels, channels, param.jpeg, noise.value);
      PlanNoise(g.0, decolorizeChannels, channels, param.jpeg, noise.value);
    }
  }

  /** With `all_effects` every effect rolls: ten draws are consumed. */
  lemma AllEffectsRollsEveryGate(param: NoiseParam)
    requires param.allEffects
    ensures CountFlagged(GatedOrder(), Flags(param)) == 10
  {
    CountAllFlagged(GatedOrder(), Flags(param));
  }

  lemma {:induction false} CountAllFlagged(order: seq<Effect>, flags: set<Effect>)
    requires forall k :: 0 <= k < |order| ==> order[k] in flags
    ensures CountFlagged(order, flags) == |order|
  {
    if |order| > 0 {
      assert forall k :: 0 <= k < |order| - 1 ==> order[1..][k] == order[k + 1];
      CountAllFlagged(order[1..], flags);
    }
  }

  /** As written, decolorize never runs, though its gate still consumes a draw
      when the flag is set. */
  lemma DecolorizeNeverRuns(param: NoiseParam, channels: nat, cols: nat, rows: nat, draws: seq<real>)
    requires channels == 1 || channels == 3
    requires UnitDraws(draws)
    requires param.prob >= 0.0 || CountFlagged(GatedOrder(), Flags(param)) == 0
    requires CountFlagged(GatedOrder(), Flags(param)) <= |draws|
    ensures var r := ApplyNoise(param, channels, cols, rows, draws);
      r.Ok? ==> Gray !in r.value.ops
  {
    if param.prob != 0.0 {
      ScheduleFollowsGates(param, channels, cols, rows, draws, 1);
    }
  }

  /** Corrected, decolorize runs on a colour image exactly when its gate fires. */
  lemma DecolorizeRunsWhenGateFires(param: NoiseParam, cols: nat, rows: nat, draws: seq<real>)
    requires UnitDraws(draws)
    requires param.prob >= 0.0 || CountFlagged(GatedOrder(), Flags(param)) == 0
    requires CountFlagged(GatedOrder(), Flags(param)) <= |draws|
    requires param.prob != 0.0
    ensures var r := ApplyNoiseCorrected(param, 3, cols, rows, draws);
      r.Ok? ==> (Gray in r.value.ops <==> Fires(param, draws, 0))
  {
    ScheduleFollowsGates(param, 3, cols, rows, draws, 3);
  }
}
