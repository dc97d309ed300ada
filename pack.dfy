/**
 * Conversions between bytes and 32-bit words used by SM4. Every conversion
 * is big-endian: the first byte is the most significant one.
 */
module Sm4Pack {
  import opened Sm4Types

  /** Numeric value of four bytes read most-significant first (it never exceeds 32 bits). */
  function BigEndianValue(b: seq<bv8>): bv32
    requires |b| >= 4
  {
    (b[0] as bv32) * 0x100_0000 + (b[1] as bv32) * 0x1_0000 + (b[2] as bv32) * 0x100 + (b[3] as bv32)
  }

  /** `split`: the four bytes of a word, most significant first. */
  function Split(w: bv32): (r: seq<bv8>)
    ensures |r| == 4
  {
    [((w >> 24) & 0xFF) as bv8, ((w >> 16) & 0xFF) as bv8, ((w >> 8) & 0xFF) as bv8, (w & 0xFF) as bv8]
  }

  /** `combine`: the word whose big-endian bytes are `b[0..4]`; bytes past the fourth are ignored. */
  function Combine(b: seq<bv8>): bv32
    requires |b| >= 4
  {
    (b[3] as bv32) | ((b[2] as bv32) << 8) | ((b[1] as bv32) << 16) | ((b[0] as bv32) << 24)
  }

  /** `combine` computes the big-endian value of its first four bytes. */
  lemma CombineValue(b: seq<bv8>)
    requires |b| >= 4
    ensures Combine(b) == BigEndianValue(b)
  {
  }

  /** The big-endian value of the bytes of `split(w)` is `w`. */
  lemma SplitValue(w: bv32)
    ensures BigEndianValue(Split(w)) == w
  {
  }

  /** Combining the bytes of a split word gives the word back. */
  lemma CombineSplit(w: bv32)
    ensures Combine(Split(w)) == w
  {
  }

  /** Splitting a combined word gives the four bytes back. */
  lemma SplitCombine(b: seq<bv8>)
    requires |b| == 4
    ensures Split(Combine(b)) == b
  {
  }

  /** Two words with the same four bytes are equal. */
  lemma SplitInjective(v: bv32, w: bv32)
    requires Split(v) == Split(w)
    ensures v == w
  {
    CombineSplit(v);
    CombineSplit(w);
  }

  /** The four big-endian words of a 16-byte block (the value `split_block` fills in). */
  function BlockWords(b: seq<bv8>): (r: seq<bv32>)
    requires |b| == 16
    ensures |r| == 4
  {
    [Combine(b[0..4]), Combine(b[4..8]), Combine(b[8..12]), Combine(b[12..16])]
  }

  /** The 16 bytes of four words, each word big-endian (the value `combine_block` fills in). */
  function WordsBytes(w: seq<bv32>): (r: seq<bv8>)
    requires |w| == 4
    ensures |r| == 16
  {
    Split(w[0]) + Split(w[1]) + Split(w[2]) + Split(w[3])
  }

  /** Byte `4 * i + j` of a serialised block is byte `j` of word `i`. */
  lemma WordsBytesAt(w: seq<bv32>, i: nat, j: nat)
    requires |w| == 4 && i < 4 && j < 4
    ensures WordsBytes(w)[4 * i + j] == Split(w[i])[j]
  {
  }

  /** Serialising four words and reading the block back gives the words. */
  lemma BlockWordsOfWordsBytes(w: seq<bv32>)
    requires |w| == 4
    ensures BlockWords(WordsBytes(w)) == w
  {
    var b := WordsBytes(w);
    assert b[0..4] == Split(w[0]);
    assert b[4..8] == Split(w[1]);
    assert b[8..12] == Split(w[2]);
    assert b[12..16] == Split(w[3]);
    CombineSplit(w[0]);
    CombineSplit(w[1]);
    CombineSplit(w[2]);
    CombineSplit(w[3]);
  }

  /** Reading a block as words and serialising them gives the block. */
  lemma WordsBytesOfBlockWords(b: seq<bv8>)
    requires |b| == 16
    ensures WordsBytes(BlockWords(b)) == b
  {
    SplitCombine(b[0..4]);
    SplitCombine(b[4..8]);
    SplitCombine(b[8..12]);
    SplitCombine(b[12..16]);
    assert b == b[0..4] + b[4..8] + b[8..12] + b[12..16];
  }

  /**
   * `split_block`: the four big-endian words of a 16-byte input, or
   * `ErrorBlockSize` for any other length. This is the only length check
   * of the engine.
   */
  method SplitBlock(input: seq<bv8>) returns (r: Result<seq<bv32>>)
    ensures r.Err? <==> |input| != 16
    ensures r.Err? ==> r.error == ErrorBlockSize
    ensures r.Ok? ==> r.value == BlockWords(input) && WordsBytes(r.value) == input
  {
    if |input| != 16 {
      return Err(ErrorBlockSize);
    }
    var out := new bv32[4];
    for i := 0 to 4
      invariant forall m :: 0 <= m < i ==> out[m] == Combine(input[4 * m..4 * m + 4])
    {
      out[i] := Combine(input[4 * i..4 * i + 4]);
    }
    assert out[..] == BlockWords(input);
    WordsBytesOfBlockWords(input);
    r := Ok(out[..]);
  }

  /**
   * `combine_block`: the 16 bytes of the first four words, each
   * big-endian, in order. It never fails.
   */
  method CombineBlock(input: seq<bv32>) returns (r: Result<seq<bv8>>)
    requires |input| >= 4
    ensures r == Ok(WordsBytes(input[..4]))
  {
    var out := new bv8[16];
    for i := 0 to 4
      invariant forall p, q :: 0 <= p < i && 0 <= q < 4 ==> out[4 * p + q] == Split(input[p])[q]
    {
      var outi := Split(input[i]);
      for j := 0 to 4
        invariant forall p, q :: 0 <= p < i && 0 <= q < 4 ==> out[4 * p + q] == Split(input[p])[q]
        invariant forall q :: 0 <= q < j ==> out[4 * i + q] == outi[q]
      {
        out[i * 4 + j] := outi[j];
      }
    }
    CombineBlockValue(input, out[..]);
    r := Ok(out[..]);
  }

  /** What `combine_block` returns is the serialisation of its first four words. */
  lemma CombineBlockValue(input: seq<bv32>, out: seq<bv8>)
    requires |input| >= 4 && |out| == 16
    requires forall i, j :: 0 <= i < 4 && 0 <= j < 4 ==> out[4 * i + j] == Split(input[i])[j]
    ensures out == WordsBytes(input[..4])
  {
    forall m | 0 <= m < 16
      ensures out[m] == WordsBytes(input[..4])[m]
    {
      WordsBytesAt(input[..4], m / 4, m % 4);
      assert m == 4 * (m / 4) + m % 4;
    }
  }
}
