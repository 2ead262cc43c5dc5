/** `colorReduce`: posterisation through a 256-entry lookup table that maps
    every byte to the middle of its bucket of width `div`. The table entries
    are stored as `uchar`, so an entry past 255 wraps modulo 256. */
module Posterize {
  import opened Common

  /** Entry `i` of the table for bucket width `div`, after the store into a
      `uchar`. */
  function LutEntry(div: int, i: int): byte
    requires div > 0 && 0 <= i < 256
  {
    ((i / div * div + div / 2) % 256) as byte
  }

  /** No entry of the table exceeds 255 before the store. */
  predicate NoWrap(div: int)
    requires div > 0
  {
    forall i :: 0 <= i < 256 ==> i / div * div + div / 2 < 256
  }

  /** `colorReduce`'s loop filling the lookup table. */
  method ColorReduceTable(div: int) returns (lut: array<byte>)
    requires div > 0
    ensures fresh(lut) && lut.Length == 256
    ensures forall i :: 0 <= i < 256 ==> lut[i] == LutEntry(div, i)
  {
    lut := new byte[256];
    var half := div / 2;
    var i := 0;
    while i < 256
      invariant 0 <= i <= 256
      invariant forall k :: 0 <= k < i ==> lut[k] == LutEntry(div, k)
    {
      lut[i] := ((i / div * div + half) % 256) as byte;
      i := i + 1;
    }
  }

  /** The table as a sequence. */
  function Table(div: int): (t: seq<byte>)
    requires div > 0
    ensures |t| == 256
  {
    seq(256, i requires 0 <= i < 256 => LutEntry(div, i))
  }

  /** `cv::LUT` with one table for every channel: each byte is replaced by its
      entry. */
  function ApplyLut(table: seq<byte>, pixels: seq<byte>): (out: seq<byte>)
    requires |table| == 256
    ensures |out| == |pixels|
    ensures forall k :: 0 <= k < |pixels| ==> out[k] == table[pixels[k]]
  {
    seq(|pixels|, k requires 0 <= k < |pixels| => table[pixels[k]])
  }

  // ---------------------------------------------------------------------
  // Arithmetic helpers

  lemma MulAtLeast(k: int, d: int)
    requires k >= 1 && d > 0
    ensures k * d >= d
  {
    assert (k - 1) * d >= 0;
  }

  /** A multiple of `d` smaller than `d` is a non-positive one. */
  lemma MultipleBelow(k: int, d: int)
    requires d > 0 && k * d < d
    ensures k <= 0
  {
    if k >= 1 {
      MulAtLeast(k, d);
    }
  }

  /** The quotient is determined by any decomposition with an in-range remainder. */
  lemma DivUnique(a: int, d: int, q: int, r: int)
    requires d > 0 && a == q * d + r && 0 <= r < d
    ensures a / d == q
  {
    var k := q - a / d;
    assert k * d == a % d - r;
    MultipleBelow(k, d);
    MultipleBelow(-k, d);
  }

  /** Division by a positive number is monotone. */
  lemma DivMonotone(i: int, j: int, d: int)
    requires d > 0 && 0 <= i <= j
    ensures i / d <= j / d
  {
    var k := i / d - j / d;
    assert k * d == (i - i % d) - (j - j % d);
    MultipleBelow(k, d);
  }

  // ---------------------------------------------------------------------
  // Properties of the table

  /** Without wrap-around the entry of `i` lies in `i`'s own bucket, at its
      middle `div / 2`. */
  lemma EntryInOwnBucket(div: int, i: int)
    requires div > 0 && NoWrap(div) && 0 <= i < 256
    ensures LutEntry(div, i) as int == i / div * div + div / 2
    ensures LutEntry(div, i) as int / div == i / div
  {
    var q := i / div;
    assert q * div + div / 2 < 256;
    assert 0 <= q * div;
    assert (q * div + div / 2) % 256 == q * div + div / 2;
    DivUnique(q * div + div / 2, div, q, div / 2);
  }

  /** Without wrap-around, looking an entry up again gives the same entry:
      posterising twice is posterising once. */
  lemma LutIdempotent(div: int, i: int)
    requires div > 0 && NoWrap(div) && 0 <= i < 256
    ensures LutEntry(div, LutEntry(div, i) as int) == LutEntry(div, i)
  {
    EntryInOwnBucket(div, i);
    var e := LutEntry(div, i) as int;
    assert e / div * div + div / 2 == i / div * div + div / 2;
    assert e / div * div + div / 2 < 256;
  }

  /** Without wrap-around the table is monotone: it keeps the order of bytes. */
  lemma LutMonotone(div: int, i: int, j: int)
    requires div > 0 && NoWrap(div) && 0 <= i <= j < 256
    ensures LutEntry(div, i) <= LutEntry(div, j)
  {
    EntryInOwnBucket(div, i);
    EntryInOwnBucket(div, j);
    DivMonotone(i, j, div);
    assert i / div * div <= j / div * div;
  }

  /** Only the last entry can wrap: the table wraps exactly when entry 255
      does. */
  lemma NoWrapAtTop(div: int)
    requires div > 0
    ensures NoWrap(div) <==> 255 / div * div + div / 2 < 256
  {
    if 255 / div * div + div / 2 < 256 {
      forall i | 0 <= i < 256
        ensures i / div * div + div / 2 < 256
      {
        DivMonotone(i, 255, div);
        assert i / div * div <= 255 / div * div;
      }
    }
  }

  /** Posterising an image twice is posterising it once, when no entry wraps. */
  lemma PosterizeIdempotent(div: int, pixels: seq<byte>)
    requires div > 0 && NoWrap(div)
    ensures ApplyLut(Table(div), ApplyLut(Table(div), pixels)) == ApplyLut(Table(div), pixels)
  {
    var once := ApplyLut(Table(div), pixels);
    forall k | 0 <= k < |pixels|
      ensures Table(div)[once[k]] == once[k]
    {
      LutIdempotent(div, pixels[k] as int);
    }
  }

  /** With bucket width 200 the entry of 255 wraps to 44, below the entry 100
      of byte 0: the table is then neither monotone nor idempotent. */
  lemma WideBucketsWrap()
    ensures LutEntry(200, 255) == 44 && LutEntry(200, 0) == 100
    ensures LutEntry(200, 44) != 44
    ensures !NoWrap(200)
  {
    assert 255 / 200 * 200 + 200 / 2 >= 256;
  }
}
