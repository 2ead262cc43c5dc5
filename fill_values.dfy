/** The normalisation of configured fill values shared by the pad value of
    `ApplyResize` and the salt-and-pepper values of `ApplyNoise`: the count must
    be one or one per channel, and a single value is replicated across the
    channels by `push_back`. */
module FillValues {
  import opened Common

  /** The CHECK on the count: none configured, one, or one per channel. */
  predicate CountAccepted<T>(values: seq<T>, channels: nat)
  {
    |values| == 0 || |values| == 1 || |values| == channels
  }

  /** `k` copies of `v`. */
  function Replicate<T>(v: T, k: nat): (s: seq<T>)
    ensures |s| == k
    ensures forall i :: 0 <= i < k ==> s[i] == v
  {
    if k == 0 then [] else Replicate(v, k - 1) + [v]
  }

  /** The values after the CHECK and the replication: every channel receives
      its own value, or the single value when only one is configured. */
  function FillValues<T>(values: seq<T>, channels: nat): (r: Result<seq<T>>)
    requires channels > 0
    ensures r.Ok? <==> CountAccepted(values, channels)
    ensures r.Ok? && |values| == 0 ==> r.value == []
    ensures r.Ok? && |values| > 0 ==>
      |r.value| == channels &&
      forall c :: 0 <= c < channels ==> r.value[c] == values[if |values| == 1 then 0 else c]
  {
    if |values| == 0 then Ok([])
    else if !(|values| == 1 || |values| == channels) then Err(FillValueCount)
    else if channels > 1 && |values| == 1 then Ok(values + Replicate(values[0], channels - 1))
    else Ok(values)
  }

  /** The replication as the source writes it: copy the configured values,
      then push the first one once for every further channel. */
  method ReplicateFillValues<T>(values: seq<T>, channels: nat) returns (r: Result<seq<T>>)
    requires channels > 0
    ensures r == FillValues(values, channels)
  {
    if |values| > 0 && !(|values| == 1 || |values| == channels) {
      return Err(FillValueCount);
    }
    var out: seq<T> := [];
    for i := 0 to |values|
      invariant out == values[..i]
    {
      out := out + [values[i]];
    }
    assert out == values;
    if channels > 1 && |values| == 1 {
      for c := 1 to channels
        invariant |out| == c
        invariant forall k :: 0 <= k < c ==> out[k] == values[0]
      {
        out := out + [out[0]];
      }
      assert out == values + Replicate(values[0], channels - 1);
    }
    r := Ok(out);
  }
}
