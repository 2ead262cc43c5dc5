/** Salt-and-pepper noise: `constantNoise` overwrites randomly drawn pixel
    positions of an image in place with a fill colour, and the salt-and-pepper
    step of `ApplyNoise` prepares its fill values and pixel count. The image is
    a `rows x cols x channels` byte buffer; each write draws a column and then
    a row from `caffe_rng_rand`, supplied here as the pairs `draws`. */
module SaltPepper {
  import opened Common
  import FillValues

  /** Some of the first `n` draws lands on pixel (`row`, `col`). */
  predicate Hit(draws: seq<(nat, nat)>, n: int, rows: int, cols: int, row: int, col: int)
    requires rows > 0 && cols > 0
  {
    exists k :: 0 <= k < n && k < |draws| && draws[k].0 % cols == col && draws[k].1 % rows == row
  }

  /** The draws land on exactly one more pixel after one more write. */
  lemma HitStep(draws: seq<(nat, nat)>, k: nat, rows: int, cols: int, row: int, col: int)
    requires rows > 0 && cols > 0 && k < |draws|
    ensures Hit(draws, k + 1, rows, cols, row, col) <==>
      Hit(draws, k, rows, cols, row, col) || (draws[k].0 % cols == col && draws[k].1 % rows == row)
  {
    if Hit(draws, k + 1, rows, cols, row, col) && !(draws[k].0 % cols == col && draws[k].1 % rows == row) {
      var m :| 0 <= m < k + 1 && m < |draws| && draws[m].0 % cols == col && draws[m].1 % rows == row;
      assert m < k;
    }
  }

  /** Whether `constantNoise` writes into an image with `channels` channels. */
  predicate Writes(channels: int)
  {
    channels == 1 || channels == 3
  }

  /** `constantNoise(n, val, image)`: each of the `n` writes sets every channel
      of the drawn pixel to the fill colour; a pixel no draw lands on keeps its
      value, and an image with other than 1 or 3 channels is left alone. The
      fill colour must have an entry per channel written; draws are needed only
      when there is something to write. */
  method ConstantNoise(n: int, val: seq<byte>, image: array3<byte>, draws: seq<(nat, nat)>)
    requires n > 0 && Writes(image.Length2) ==>
      image.Length0 > 0 && image.Length1 > 0 && |draws| >= n && |val| >= image.Length2
    modifies image
    ensures forall row, col, c :: 0 <= row < image.Length0 && 0 <= col < image.Length1 && 0 <= c < image.Length2 ==>
      image[row, col, c] ==
        if n > 0 && Writes(image.Length2) && Hit(draws, n, image.Length0, image.Length1, row, col)
        then val[c] else old(image[row, col, c])
  {
    var cols := image.Length1;
    var rows := image.Length0;
    if image.Length2 == 1 {
      var k := 0;
      while k < n
        invariant 0 <= k <= if n > 0 then n else 0
        invariant forall row, col, c :: 0 <= row < rows && 0 <= col < cols && 0 <= c < 1 ==>
          image[row, col, c] == if Hit(draws, k, rows, cols, row, col) then val[c] else old(image[row, col, c])
      {
        var i := draws[k].0 % cols;
        var j := draws[k].1 % rows;
        image[j, i, 0] := val[0];
        forall row, col | 0 <= row < rows && 0 <= col < cols
          ensures Hit(draws, k + 1, rows, cols, row, col) <==> Hit(draws, k, rows, cols, row, col) || (row == j && col == i)
        {
          HitStep(draws, k, rows, cols, row, col);
        }
        k := k + 1;
      }
    } else if image.Length2 == 3 {
      var k := 0;
      while k < n
        invariant 0 <= k <= if n > 0 then n else 0
        invariant forall row, col, c :: 0 <= row < rows && 0 <= col < cols && 0 <= c < 3 ==>
          image[row, col, c] == if Hit(draws, k, rows, cols, row, col) then val[c] else old(image[row, col, c])
      {
        var i := draws[k].0 % cols;
        var j := draws[k].1 % rows;
        image[j, i, 0] := val[0];
        image[j, i, 1] := val[1];
        image[j, i, 2] := val[2];
        forall row, col | 0 <= row < rows && 0 <= col < cols
          ensures Hit(draws, k + 1, rows, cols, row, col) <==> Hit(draws, k, rows, cols, row, col) || (row == j && col == i)
        {
          HitStep(draws, k, rows, cols, row, col);
        }
        k := k + 1;
      }
    }
  }

  /** The pixels the first `n` draws land on. */
  function Hits(draws: seq<(nat, nat)>, n: int, rows: int, cols: int): set<(int, int)>
    requires rows > 0 && cols > 0
  {
    set row, col | 0 <= row < rows && 0 <= col < cols && Hit(draws, n, rows, cols, row, col) :: (row, col)
  }

  /** `n` writes land on at most `n` distinct pixels, so with fewer writes
      than pixels some pixel keeps its value; in particular
      `fraction = 1` does not in general overwrite the whole image. */
  lemma {:induction false} HitsAtMostWrites(draws: seq<(nat, nat)>, n: nat, rows: int, cols: int)
    requires rows > 0 && cols > 0 && n <= |draws|
    ensures |Hits(draws, n, rows, cols)| <= n
  {
    if n == 0 {
      assert Hits(draws, n, rows, cols) == {};
    } else {
      HitsAtMostWrites(draws, n - 1, rows, cols);
      var before := Hits(draws, n - 1, rows, cols);
      var last := (draws[n - 1].1 % rows, draws[n - 1].0 % cols);
      forall p | p in Hits(draws, n, rows, cols)
        ensures p in before + {last}
      {
        HitStep(draws, n - 1, rows, cols, p.0, p.1);
      }
      SubsetCard(Hits(draws, n, rows, cols), before + {last});
    }
  }

  lemma SubsetCard<T>(a: set<T>, b: set<T>)
    requires a <= b
    ensures |a| <= |b|
  {
    assert b == a + (b - a);
  }

  /** Two draws on the same pixel of a 1 x 2 image leave the other pixel as it
      was, although the pixel count is the whole image. */
  lemma RepeatedDrawLeavesPixel()
    ensures !Hit([(0, 0), (2, 0)], 2, 1, 2, 0, 1)
  {
  }

  /** The salt-and-pepper step of `ApplyNoise`: the fill colour (the configured
      values, one replicated across channels, an error for any other count) and
      the number of writes `floor(fraction * cols * rows)`. */
  function NoiseSetup(values: seq<byte>, channels: nat, cols: nat, rows: nat, fraction: real): (r: Result<(int, seq<byte>)>)
    requires channels > 0
    ensures r.Err? <==> !FillValues.CountAccepted(values, channels)
    ensures r.Ok? ==> r.value.0 as real <= fraction * cols as real * rows as real < r.value.0 as real + 1.0
    ensures r.Ok? && |values| > 0 ==>
      |r.value.1| == channels && forall c :: 0 <= c < channels ==> r.value.1[c] == values[if |values| == 1 then 0 else c]
    ensures r.Ok? && |values| == 0 ==> r.value.1 == []
  {
    match FillValues.FillValues(values, channels)
    case Err(e) => Err(e)
    case Ok(fill) => Ok(((fraction * cols as real * rows as real).Floor, fill))
  }

  /** Whether `constantNoise` can run on what `NoiseSetup` prepared: it reads
      the fill colour only when it writes, and then needs one. */
  lemma SetupFeedsNoise(values: seq<byte>, channels: nat, cols: nat, rows: nat, fraction: real)
    requires channels > 0 && Writes(channels)
    requires NoiseSetup(values, channels, cols, rows, fraction).Ok?
    ensures var s := NoiseSetup(values, channels, cols, rows, fraction).value;
      |s.1| >= channels <==> |values| > 0
  {
  }

  /** With `fraction = 0` nothing is written. */
  lemma ZeroFractionWritesNothing(values: seq<byte>, channels: nat, cols: nat, rows: nat)
    requires channels > 0 && FillValues.CountAccepted(values, channels)
    ensures NoiseSetup(values, channels, cols, rows, 0.0).value.0 == 0
  {
  }
}
