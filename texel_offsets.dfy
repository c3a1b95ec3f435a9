/** The byte offsets the texture constructors use to lay out texels in their
    staging arrays (src/Texture2D.cpp, src/Texture3D.cpp): four bytes per
    texel, the first coordinate fastest. The lemmas show each layout is a
    bijection between in-range (channel, coordinates) and the array's bytes,
    so every byte is written exactly once. */
module TexelOffsets {

  const CHANNELS: nat := 4

  /** `c + 4 * i + 4 * width * j` */
  function Offset2(c: nat, i: nat, j: nat, width: nat): nat
  {
    c + CHANNELS * i + CHANNELS * width * j
  }

  /** `c + 4 * i + 4 * width * j + 4 * width * height * k` */
  function Offset3(c: nat, i: nat, j: nat, k: nat, width: nat, height: nat): nat
  {
    c + CHANNELS * i + CHANNELS * width * j + CHANNELS * width * height * k
  }

  // ---------------------------------------------------------------------------
  // One digit of a mixed-radix number
  // ---------------------------------------------------------------------------

  lemma MulLeft(n: nat, x: nat, y: nat)
    requires x <= y
    ensures n * x <= n * y
  {
  }

  /** A low digit below `n` and a high digit below `m` stay below `n * m`. */
  lemma DigitBound(n: nat, m: nat, low: nat, high: nat)
    requires low < n && high < m
    ensures low + n * high < n * m
  {
    MulLeft(n, high + 1, m);
  }

  /** The two digits are determined by the number. */
  lemma DigitUnique(n: nat, low: nat, high: nat, low': nat, high': nat)
    requires low < n && low' < n && low + n * high == low' + n * high'
    ensures low == low' && high == high'
  {
    if high < high' {
      MulLeft(n, high + 1, high');
      assert false;
    } else if high' < high {
      MulLeft(n, high' + 1, high);
      assert false;
    }
  }

  /** Every number below `n * m` has its two digits. */
  lemma DigitSplit(n: nat, m: nat, x: nat) returns (low: nat, high: nat)
    requires x < n * m
    ensures low < n && high < m && x == low + n * high
  {
    low, high := x % n, x / n;
    if high >= m {
      MulLeft(n, m, high);
      assert false;
    }
  }

  // ---------------------------------------------------------------------------
  // Two-dimensional layout
  // ---------------------------------------------------------------------------

  lemma Offset2Digits(c: nat, i: nat, j: nat, width: nat)
    ensures Offset2(c, i, j, width) == c + CHANNELS * (i + width * j)
  {
  }

  /** Every in-range texel channel lands inside the `width * height * 4`
      array. */
  lemma Offset2Bound(c: nat, i: nat, j: nat, width: nat, height: nat)
    requires c < CHANNELS && i < width && j < height
    ensures Offset2(c, i, j, width) < width * height * CHANNELS
  {
    Offset2Digits(c, i, j, width);
    DigitBound(width, height, i, j);
    DigitBound(CHANNELS, width * height, c, i + width * j);
  }

  /** Distinct texel channels land on distinct bytes. */
  lemma Offset2Injective(c: nat, i: nat, j: nat, c': nat, i': nat, j': nat, width: nat)
    requires c < CHANNELS && c' < CHANNELS && i < width && i' < width
    requires Offset2(c, i, j, width) == Offset2(c', i', j', width)
    ensures c == c' && i == i' && j == j'
  {
    Offset2Digits(c, i, j, width);
    Offset2Digits(c', i', j', width);
    DigitUnique(CHANNELS, c, i + width * j, c', i' + width * j');
    DigitUnique(width, i, j, i', j');
  }

  /** Every byte of the array is some texel channel's. */
  lemma Offset2Onto(x: nat, width: nat, height: nat) returns (c: nat, i: nat, j: nat)
    requires x < width * height * CHANNELS
    ensures c < CHANNELS && i < width && j < height && Offset2(c, i, j, width) == x
  {
    var texel;
    c, texel := DigitSplit(CHANNELS, width * height, x);
    i, j := DigitSplit(width, height, texel);
    Offset2Digits(c, i, j, width);
  }

  // ---------------------------------------------------------------------------
  // Three-dimensional layout
  // ---------------------------------------------------------------------------

  lemma Offset3Digits(c: nat, i: nat, j: nat, k: nat, width: nat, height: nat)
    ensures Offset3(c, i, j, k, width, height) == c + CHANNELS * (i + width * (j + height * k))
  {
    assert width * (j + height * k) == width * j + width * height * k;
  }

  lemma Offset3Bound(c: nat, i: nat, j: nat, k: nat, width: nat, height: nat, depth: nat)
    requires c < CHANNELS && i < width && j < height && k < depth
    ensures Offset3(c, i, j, k, width, height) < width * height * depth * CHANNELS
  {
    Offset3Digits(c, i, j, k, width, height);
    DigitBound(height, depth, j, k);
    DigitBound(width, height * depth, i, j + height * k);
    DigitBound(CHANNELS, width * (height * depth), c, i + width * (j + height * k));
    assert width * (height * depth) == width * height * depth;
  }

  lemma Offset3Injective(c: nat, i: nat, j: nat, k: nat, c': nat, i': nat, j': nat, k': nat, width: nat, height: nat)
    requires c < CHANNELS && c' < CHANNELS && i < width && i' < width && j < height && j' < height
    requires Offset3(c, i, j, k, width, height) == Offset3(c', i', j', k', width, height)
    ensures c == c' && i == i' && j == j' && k == k'
  {
    Offset3Digits(c, i, j, k, width, height);
    Offset3Digits(c', i', j', k', width, height);
    DigitUnique(CHANNELS, c, i + width * (j + height * k), c', i' + width * (j' + height * k'));
    DigitUnique(width, i, j + height * k, i', j' + height * k');
    DigitUnique(height, j, k, j', k');
  }

  lemma Offset3Onto(x: nat, width: nat, height: nat, depth: nat) returns (c: nat, i: nat, j: nat, k: nat)
    requires x < width * height * depth * CHANNELS
    ensures c < CHANNELS && i < width && j < height && k < depth
    ensures Offset3(c, i, j, k, width, height) == x
  {
    assert width * height * depth * CHANNELS == CHANNELS * (width * (height * depth));
    var texel, column;
    c, texel := DigitSplit(CHANNELS, width * (height * depth), x);
    i, column := DigitSplit(width, height * depth, texel);
    j, k := DigitSplit(height, depth, column);
    Offset3Digits(c, i, j, k, width, height);
  }

  /** The channels of one voxel are consecutive bytes. */
  lemma Offset3Channel(c: nat, i: nat, j: nat, k: nat, width: nat, height: nat)
    ensures Offset3(c, i, j, k, width, height) == Offset3(0, i, j, k, width, height) + c
  {
  }
}
