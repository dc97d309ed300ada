/**
 * The SM4 engine `Sm4Cipher` of src/sm4/cipher.rs: key expansion into 32
 * round keys, encryption and decryption of one 16-byte block, and the
 * portable path of the four-block batch.
 *
 * Encryption runs the Feistel recurrence with the round function T and the
 * round keys in ascending order; decryption runs the same recurrence with
 * the round keys in descending order. Both write the last four words out in
 * reverse order.
 */
module Sm4 {
  import opened Sm4Types
  import opened Sm4Tables
  import opened Sm4Pack
  import opened Sm4Transforms
  import opened Sm4Feistel

  /** The first window of the key schedule: K(i) = MK(i) ^ FK(i) for i < 4. */
  function KeyStart(mk: seq<bv32>): Quad
    requires |mk| == 4
  {
    Quad(mk[0] ^ FK[0], mk[1] ^ FK[1], mk[2] ^ FK[2], mk[3] ^ FK[3])
  }

  /** The 32 round keys of the key words `mk`: rk(i) is the word K(i + 4) of the key schedule. */
  function KeyExpansion(mk: seq<bv32>): (rk: seq<bv32>)
    requires |mk| == 4
    ensures |rk| == 32
  {
    Trace(KeyStart(mk), KeySub, CK, 32)
  }

  /**
   * Round key `i` is the word the key-schedule recurrence computes from the
   * four words before it, with T' and CK(i).
   */
  lemma KeyExpansionRecurrence(mk: seq<bv32>, i: nat)
    requires |mk| == 4 && i < 32
    ensures KeyExpansion(mk)[i] == X(KeyStart(mk), KeySub, CK, i + 4)
  {
    TraceAt(KeyStart(mk), KeySub, CK, 32, i);
  }

  /** The window of a 16-byte block: its four big-endian words X(0), ..., X(3). */
  function BlockQuad(block: seq<bv8>): Quad
    requires |block| == 16
  {
    ToQuad(BlockWords(block))
  }

  /** The output block of a final window: its words in reverse order, each big-endian. */
  function QuadBlock(q: Quad): seq<bv8> {
    WordsBytes(Words(Swap(q)))
  }

  /** Reading a block written from a reversed window gives that reversed window. */
  lemma BlockQuadOfQuadBlock(q: Quad)
    ensures BlockQuad(QuadBlock(q)) == Swap(q)
  {
    BlockWordsOfWordsBytes(Words(Swap(q)));
  }

  /** Writing the reverse of a block's window gives the block back. */
  lemma QuadBlockOfSwap(block: seq<bv8>)
    requires |block| == 16
    ensures QuadBlock(Swap(BlockQuad(block))) == block
  {
    WordsBytesOfBlockWords(block);
  }

  /** `encrypt` as a value: `ErrorBlockSize` unless the block has 16 bytes. */
  function EncryptBlock(rk: seq<bv32>, block: seq<bv8>): (r: Result<seq<bv8>>)
    requires |rk| == 32
    ensures r.Err? <==> |block| != 16
    ensures r.Err? ==> r.error == ErrorBlockSize
    ensures r.Ok? ==> |r.value| == 16
  {
    if |block| != 16 then Err(ErrorBlockSize)
    else Ok(QuadBlock(Iterate(BlockQuad(block), TTrans, rk, |rk|)))
  }

  /** `decrypt` as a value: the rounds of `encrypt` with the round keys reversed. */
  function DecryptBlock(rk: seq<bv32>, block: seq<bv8>): (r: Result<seq<bv8>>)
    requires |rk| == 32
    ensures r.Err? <==> |block| != 16
    ensures r.Err? ==> r.error == ErrorBlockSize
    ensures r.Ok? ==> |r.value| == 16
  {
    if |block| != 16 then Err(ErrorBlockSize)
    else Ok(QuadBlock(Iterate(BlockQuad(block), TTrans, Reversed(rk), |rk|)))
  }

  /**
   * The ciphertext is (X(35), X(34), X(33), X(32)) of the round recurrence
   * started from the plaintext words with T and the round keys.
   */
  lemma EncryptBlockWords(rk: seq<bv32>, block: seq<bv8>)
    requires |rk| == 32 && |block| == 16
    ensures EncryptBlock(rk, block).value ==
      WordsBytes([X(BlockQuad(block), TTrans, rk, 35), X(BlockQuad(block), TTrans, rk, 34),
                  X(BlockQuad(block), TTrans, rk, 33), X(BlockQuad(block), TTrans, rk, 32)])
  {
    IterateWindow(BlockQuad(block), TTrans, rk, |rk|);
  }

  /** Decryption undoes encryption under the same round keys. */
  lemma DecryptEncrypt(rk: seq<bv32>, block: seq<bv8>)
    requires |rk| == 32 && |block| == 16
    ensures DecryptBlock(rk, EncryptBlock(rk, block).value) == Ok(block)
  {
    var q := BlockQuad(block);
    BlockQuadOfQuadBlock(Iterate(q, TTrans, rk, |rk|));
    FeistelInverse(q, TTrans, rk);
    QuadBlockOfSwap(block);
  }

  /** Encryption undoes decryption under the same round keys. */
  lemma EncryptDecrypt(rk: seq<bv32>, block: seq<bv8>)
    requires |rk| == 32 && |block| == 16
    ensures EncryptBlock(rk, DecryptBlock(rk, block).value) == Ok(block)
  {
    var q := BlockQuad(block);
    BlockQuadOfQuadBlock(Iterate(q, TTrans, Reversed(rk), |rk|));
    FeistelInverse(q, TTrans, Reversed(rk));
    ReversedReversed(rk);
    QuadBlockOfSwap(block);
  }

  /** Block `i` of a four-block batch. */
  function Slice(block: seq<bv8>, i: nat): (r: seq<bv8>)
    requires |block| == 64 && i < 4
    ensures |r| == 16
  {
    block[i * 16..i * 16 + 16]
  }

  /** The encryption of block `i` of a batch. */
  function BatchBlock(rk: seq<bv32>, block: seq<bv8>, i: nat): (r: seq<bv8>)
    requires |rk| == 32 && |block| == 64 && i < 4
    ensures |r| == 16
  {
    EncryptBlock(rk, Slice(block, i)).value
  }

  /** The portable path of `encrypt_sm4ni` as a value: the four blocks encrypted one by one, in order. */
  function EncryptBatch(rk: seq<bv32>, block: seq<bv8>): (r: seq<bv8>)
    requires |rk| == 32 && |block| == 64
    ensures |r| == 64
  {
    BatchBlock(rk, block, 0) + BatchBlock(rk, block, 1) + BatchBlock(rk, block, 2) + BatchBlock(rk, block, 3)
  }

  /** Four 16-byte parts laid end to end are cut back out at offsets 0, 16, 32 and 48. */
  lemma QuartersSlice(p0: seq<bv8>, p1: seq<bv8>, p2: seq<bv8>, p3: seq<bv8>)
    requires |p0| == 16 && |p1| == 16 && |p2| == 16 && |p3| == 16
    ensures (p0 + p1 + p2 + p3)[0..16] == p0 && (p0 + p1 + p2 + p3)[16..32] == p1
    ensures (p0 + p1 + p2 + p3)[32..48] == p2 && (p0 + p1 + p2 + p3)[48..64] == p3
  {
  }

  /** Each block of the batch output is the encryption of the corresponding input block. */
  lemma EncryptBatchSlice(rk: seq<bv32>, block: seq<bv8>, i: nat)
    requires |rk| == 32 && |block| == 64 && i < 4
    ensures Slice(EncryptBatch(rk, block), i) == EncryptBlock(rk, Slice(block, i)).value
  {
    QuartersSlice(BatchBlock(rk, block, 0), BatchBlock(rk, block, 1), BatchBlock(rk, block, 2), BatchBlock(rk, block, 3));
    if i == 0 {
    } else if i == 1 {
    } else if i == 2 {
    } else {
    }
  }

  /** Parts laid end to end, in order. */
  function Flatten(parts: seq<seq<bv8>>): seq<bv8> {
    if parts == [] then [] else Flatten(parts[..|parts| - 1]) + parts[|parts| - 1]
  }

  /** Laying one more part at the end extends the flattened sequence by that part. */
  lemma FlattenPush(parts: seq<seq<bv8>>, p: seq<bv8>)
    ensures Flatten(parts + [p]) == Flatten(parts) + p
  {
    assert (parts + [p])[..|parts|] == parts;
  }

  /** Four parts laid end to end. */
  lemma FlattenFour(parts: seq<seq<bv8>>)
    requires |parts| == 4
    ensures Flatten(parts) == parts[0] + parts[1] + parts[2] + parts[3]
  {
    assert parts[..1][..0] == [];
    assert Flatten(parts[..1]) == parts[0];
    assert parts[..2][..1] == parts[..1];
    assert Flatten(parts[..2]) == parts[0] + parts[1];
    assert parts[..3][..2] == parts[..2];
    assert Flatten(parts[..3]) == parts[0] + parts[1] + parts[2];
    assert parts[..3] == parts[..|parts| - 1];
  }

  /** Appending the encryption of block `i` to the encryptions of blocks `0` to `i - 1` gives those of blocks `0` to `i`. */
  lemma PartsPush(rk: seq<bv32>, block: seq<bv8>, parts: seq<seq<bv8>>, out: seq<bv8>)
    requires |rk| == 32 && |block| == 64 && |parts| < 4
    requires forall j {:trigger Slice(block, j)} :: 0 <= j < |parts| ==> Ok(parts[j]) == EncryptBlock(rk, Slice(block, j))
    requires Ok(out) == EncryptBlock(rk, Slice(block, |parts|))
    ensures forall j {:trigger Slice(block, j)} :: 0 <= j < |parts| + 1 ==> Ok((parts + [out])[j]) == EncryptBlock(rk, Slice(block, j))
  {
    forall j | 0 <= j < |parts| + 1
      ensures Ok((parts + [out])[j]) == EncryptBlock(rk, Slice(block, j))
    {
      if j < |parts| {
        assert (parts + [out])[j] == parts[j];
      } else {
        assert (parts + [out])[j] == out;
      }
    }
  }

  /** The encryptions of the four blocks of a batch, laid end to end, are the batch output. */
  lemma FlattenBatch(rk: seq<bv32>, block: seq<bv8>, parts: seq<seq<bv8>>)
    requires |rk| == 32 && |block| == 64 && |parts| == 4
    requires forall j {:trigger Slice(block, j)} :: 0 <= j < 4 ==> Ok(parts[j]) == EncryptBlock(rk, Slice(block, j))
    ensures Flatten(parts) == EncryptBatch(rk, block)
  {
    FlattenFour(parts);
    assert Ok(parts[0]) == EncryptBlock(rk, Slice(block, 0));
    assert Ok(parts[1]) == EncryptBlock(rk, Slice(block, 1));
    assert Ok(parts[2]) == EncryptBlock(rk, Slice(block, 2));
    assert Ok(parts[3]) == EncryptBlock(rk, Slice(block, 3));
  }

  /** Each block of the batch output decrypts to the corresponding input block. */
  lemma DecryptBatch(rk: seq<bv32>, block: seq<bv8>, i: nat)
    requires |rk| == 32 && |block| == 64 && i < 4
    ensures DecryptBlock(rk, Slice(EncryptBatch(rk, block), i)) == Ok(Slice(block, i))
  {
    EncryptBatchSlice(rk, block, i);
    DecryptEncrypt(rk, Slice(block, i));
  }

  /** The keys of pass `i` of `decrypt` are those of pass `i` over the reversed round keys. */
  lemma ReversedKeys(rk: seq<bv32>, i: nat)
    requires |rk| == 32 && i < 8
    ensures Reversed(rk)[i * 4] == rk[31 - i * 4] && Reversed(rk)[i * 4 + 1] == rk[31 - (i * 4 + 1)]
    ensures Reversed(rk)[i * 4 + 2] == rk[31 - (i * 4 + 2)] && Reversed(rk)[i * 4 + 3] == rk[31 - (i * 4 + 3)]
  {
    var n := i * 4;
    ReversedAt(rk, n);
    ReversedAt(rk, n + 1);
    ReversedAt(rk, n + 2);
    ReversedAt(rk, n + 3);
  }

  /** Four pushes append the four words in order. */
  lemma AppendFour(r: seq<bv32>, a: bv32, b: bv32, c: bv32, d: bv32)
    ensures r + [a] + [b] + [c] + [d] == r + [a, b, c, d]
  {
  }

  /** One round of the key schedule on four given words, as `new` computes it. */
  lemma KeySubRound(a: bv32, b: bv32, c: bv32, d: bv32, k: bv32)
    ensures Round(Quad(a, b, c, d), KeySub, k) == Quad(b, c, d, a ^ KeySub(b ^ c ^ d ^ k))
  {
    RoundWords(a, b, c, d, KeySub, k);
  }

  /** One round of the block transformation on four given words, as `encrypt` and `decrypt` compute it. */
  lemma TTransRound(a: bv32, b: bv32, c: bv32, d: bv32, k: bv32)
    ensures Round(Quad(a, b, c, d), TTrans, k) == Quad(b, c, d, a ^ TTrans(b ^ c ^ d ^ k))
  {
    RoundWords(a, b, c, d, TTrans, k);
  }

  /**
   * Pass `i` of the key loop of `new`: from the key-schedule window after
   * `4 * i` rounds, the four in-place updates with T' and CK reach the
   * window after `4 * (i + 1)` rounds, and the four words pushed are the
   * next four round keys.
   */
  lemma KeySubPass(s: Quad, i: nat, a: bv32, b: bv32, c: bv32, d: bv32,
                   c0: bv32, c1: bv32, c2: bv32, c3: bv32, y0: bv32, y1: bv32, y2: bv32, y3: bv32)
    requires i < 8
    requires c0 == CK[i * 4] && c1 == CK[i * 4 + 1] && c2 == CK[i * 4 + 2] && c3 == CK[i * 4 + 3]
    requires Iterate(s, KeySub, CK, i * 4) == Quad(a, b, c, d)
    requires y0 == a ^ KeySub(b ^ c ^ d ^ c0)
    requires y1 == b ^ KeySub(c ^ d ^ y0 ^ c1)
    requires y2 == c ^ KeySub(d ^ y0 ^ y1 ^ c2)
    requires y3 == d ^ KeySub(y0 ^ y1 ^ y2 ^ c3)
    ensures Iterate(s, KeySub, CK, (i + 1) * 4) == Quad(y0, y1, y2, y3)
    ensures Trace(s, KeySub, CK, (i + 1) * 4) == Trace(s, KeySub, CK, i * 4) + [y0, y1, y2, y3]
  {
    KeySubRound(a, b, c, d, c0);
    KeySubRound(b, c, d, y0, c1);
    KeySubRound(c, d, y0, y1, c2);
    KeySubRound(d, y0, y1, y2, c3);
    IteratePass(s, KeySub, CK, i, a, b, c, d, c0, c1, c2, c3, y0, y1, y2, y3);
  }

  /**
   * Pass `i` of the loops of `encrypt` and `decrypt`: from the window after
   * `4 * i` rounds with the key order `keys`, the four in-place updates with
   * T reach the window after `4 * (i + 1)` rounds.
   */
  lemma TTransPass(s: Quad, keys: seq<bv32>, i: nat, a: bv32, b: bv32, c: bv32, d: bv32,
                   k0: bv32, k1: bv32, k2: bv32, k3: bv32, y0: bv32, y1: bv32, y2: bv32, y3: bv32)
    requires |keys| == 32 && i < 8
    requires k0 == keys[i * 4] && k1 == keys[i * 4 + 1] && k2 == keys[i * 4 + 2] && k3 == keys[i * 4 + 3]
    requires Iterate(s, TTrans, keys, i * 4) == Quad(a, b, c, d)
    requires y0 == a ^ TTrans(b ^ c ^ d ^ k0)
    requires y1 == b ^ TTrans(c ^ d ^ y0 ^ k1)
    requires y2 == c ^ TTrans(d ^ y0 ^ y1 ^ k2)
    requires y3 == d ^ TTrans(y0 ^ y1 ^ y2 ^ k3)
    ensures Iterate(s, TTrans, keys, (i + 1) * 4) == Quad(y0, y1, y2, y3)
  {
    TTransRound(a, b, c, d, k0);
    TTransRound(b, c, d, y0, k1);
    TTransRound(c, d, y0, y1, k2);
    TTransRound(d, y0, y1, y2, k3);
    IteratePass(s, TTrans, keys, i, a, b, c, d, k0, k1, k2, k3, y0, y1, y2, y3);
  }

  /**
   * The SM4 engine: the round keys of one cipher key.
   *
   * The four-word state `[u32; 4]` of `new`, `encrypt` and `decrypt` is a
   * value on the stack that the rounds only index with constants; the model
   * keeps it in four local variables.
   */
  class Sm4Cipher {
    /** The 32 round keys, in the order the key schedule produces them. */
    var rk: seq<bv32>

    /** Every engine `new` returns holds 32 round keys. */
    ghost predicate Valid()
      reads this
    {
      |rk| == 32
    }

    /** An engine whose round-key list is still empty. */
    constructor Empty()
      ensures rk == []
    {
      rk := [];
    }

    /**
     * The first loop of `new`: XORs each of the four key words with the
     * matching FK constant, in place; the result is the first window of the
     * key schedule.
     */
    static method Whiten(mk: seq<bv32>) returns (k0: bv32, k1: bv32, k2: bv32, k3: bv32)
      requires |mk| == 4
      ensures Quad(k0, k1, k2, k3) == KeyStart(mk)
    {
      var k := mk;
      for i := 0 to 4
        invariant |k| == 4
        invariant forall j :: 0 <= j < i ==> k[j] == mk[j] ^ FK[j]
        invariant forall j :: i <= j < 4 ==> k[j] == mk[j]
      {
        k := k[i := k[i] ^ FK[i]];
      }
      assert k[0] == mk[0] ^ FK[0] && k[1] == mk[1] ^ FK[1] && k[2] == mk[2] ^ FK[2] && k[3] == mk[3] ^ FK[3];
      k0, k1, k2, k3 := k[0], k[1], k[2], k[3];
    }

    /**
     * `new`: splits the key into four words (`ErrorBlockSize` unless it has
     * 16 bytes), XORs them with FK, then runs eight passes of four in-place
     * updates with T' and CK, pushing each updated word as the next round key.
     */
    static method New(key: seq<bv8>) returns (r: Result<Sm4Cipher>)
      ensures r.Err? <==> |key| != 16
      ensures r.Err? ==> r.error == ErrorBlockSize
      ensures r.Ok? ==> fresh(r.value) && r.value.Valid() && r.value.rk == KeyExpansion(BlockWords(key))
    {
      var split := SplitBlock(key);
      if split.Err? {
        return Err(split.error);
      }
      var cipher := new Sm4Cipher.Empty();
      ghost var s := KeyStart(split.value);
      var k0, k1, k2, k3 := Whiten(split.value);
      for i := 0 to 8
        invariant cipher.rk == Trace(s, KeySub, CK, i * 4)
        invariant Iterate(s, KeySub, CK, i * 4) == Quad(k0, k1, k2, k3)
      {
        ghost var a, b, c, d := k0, k1, k2, k3;
        var c0, c1, c2, c3 := CK[i * 4], CK[i * 4 + 1], CK[i * 4 + 2], CK[i * 4 + 3];
        k0 := k0 ^ KeySub(k1 ^ k2 ^ k3 ^ c0);
        k1 := k1 ^ KeySub(k2 ^ k3 ^ k0 ^ c1);
        k2 := k2 ^ KeySub(k3 ^ k0 ^ k1 ^ c2);
        k3 := k3 ^ KeySub(k0 ^ k1 ^ k2 ^ c3);
        cipher.rk := cipher.rk + [k0];
        cipher.rk := cipher.rk + [k1];
        cipher.rk := cipher.rk + [k2];
        cipher.rk := cipher.rk + [k3];
        AppendFour(Trace(s, KeySub, CK, i * 4), k0, k1, k2, k3);
        KeySubPass(s, i, a, b, c, d, c0, c1, c2, c3, k0, k1, k2, k3);
      }
      return Ok(cipher);
    }

    /**
     * `encrypt`: 32 rounds on the four words of the block, updated in place
     * one word per round with T and the round keys in ascending order; the
     * words are written out in reverse order.
     */
    method Encrypt(blockIn: seq<bv8>) returns (r: Result<seq<bv8>>)
      requires Valid()
      ensures r == EncryptBlock(rk, blockIn)
    {
      var split := SplitBlock(blockIn);
      if split.Err? {
        return Err(split.error);
      }
      var x0, x1, x2, x3 := split.value[0], split.value[1], split.value[2], split.value[3];
      var rk := this.rk;
      ghost var s := BlockQuad(blockIn);
      for i := 0 to 8
        invariant Iterate(s, TTrans, rk, i * 4) == Quad(x0, x1, x2, x3)
      {
        ghost var a, b, c, d := x0, x1, x2, x3;
        var k0, k1, k2, k3 := rk[i * 4], rk[i * 4 + 1], rk[i * 4 + 2], rk[i * 4 + 3];
        x0 := x0 ^ TTrans(x1 ^ x2 ^ x3 ^ k0);
        x1 := x1 ^ TTrans(x2 ^ x3 ^ x0 ^ k1);
        x2 := x2 ^ TTrans(x3 ^ x0 ^ x1 ^ k2);
        x3 := x3 ^ TTrans(x0 ^ x1 ^ x2 ^ k3);
        TTransPass(s, rk, i, a, b, c, d, k0, k1, k2, k3, x0, x1, x2, x3);
      }
      var y := [x3, x2, x1, x0];
      r := CombineBlock(y);
    }

    /**
     * `decrypt`: the rounds of `encrypt` with the round keys taken from the
     * last one down, `rk[31 - j]` in round `j`.
     */
    method Decrypt(blockIn: seq<bv8>) returns (r: Result<seq<bv8>>)
      requires Valid()
      ensures r == DecryptBlock(rk, blockIn)
    {
      var split := SplitBlock(blockIn);
      if split.Err? {
        return Err(split.error);
      }
      var x0, x1, x2, x3 := split.value[0], split.value[1], split.value[2], split.value[3];
      var rk := this.rk;
      ghost var s := BlockQuad(blockIn);
      ghost var keys := Reversed(rk);
      for i := 0 to 8
        invariant Iterate(s, TTrans, keys, i * 4) == Quad(x0, x1, x2, x3)
      {
        ghost var a, b, c, d := x0, x1, x2, x3;
        var k0, k1, k2, k3 := rk[31 - i * 4], rk[31 - (i * 4 + 1)], rk[31 - (i * 4 + 2)], rk[31 - (i * 4 + 3)];
        x0 := x0 ^ TTrans(x1 ^ x2 ^ x3 ^ k0);
        x1 := x1 ^ TTrans(x2 ^ x3 ^ x0 ^ k1);
        x2 := x2 ^ TTrans(x3 ^ x0 ^ x1 ^ k2);
        x3 := x3 ^ TTrans(x0 ^ x1 ^ x2 ^ k3);
        ReversedKeys(rk, i);
        TTransPass(s, keys, i, a, b, c, d, k0, k1, k2, k3, x0, x1, x2, x3);
      }
      var y := [x3, x2, x1, x0];
      r := CombineBlock(y);
    }

    /**
     * The inner loop of `encrypt_sm4ni`: copies the 16 bytes of `tmp` into
     * `res` from offset `base` on, after the bytes already written.
     */
    static method CopyBlock(res: array<bv8>, base: nat, tmp: seq<bv8>)
      requires |tmp| == 16 && base + 16 <= res.Length
      modifies res
      ensures res[..base + 16] == old(res[..base]) + tmp
      ensures res[base + 16..] == old(res[base + 16..])
    {
      for z := 0 to 16
        invariant forall m :: 0 <= m < base ==> res[m] == old(res[m])
        invariant forall m :: base + 16 <= m < res.Length ==> res[m] == old(res[m])
        invariant forall z' :: 0 <= z' < z ==> res[base + z'] == tmp[z']
      {
        res[base + z] := tmp[z];
      }
      forall m | 0 <= m < base + 16
        ensures res[..base + 16][m] == (old(res[..base]) + tmp)[m]
      {
        if m >= base {
          assert res[base + (m - base)] == tmp[m - base];
        }
      }
    }

    /**
     * `encrypt_sm4ni` on the portable path: each of the four 16-byte blocks
     * is encrypted with `encrypt` and copied into the 64-byte result. The
     * `?` after `encrypt` never fires, since every block has 16 bytes.
     */
    method EncryptSm4ni(blockIn: seq<bv8>) returns (r: Result<seq<bv8>>)
      requires Valid() && |blockIn| == 64
      ensures r == Ok(EncryptBatch(rk, blockIn))
    {
      var res := new bv8[64];
      ghost var parts: seq<seq<bv8>> := [];
      for i := 0 to 4
        invariant |parts| == i
        invariant forall j {:trigger Slice(blockIn, j)} :: 0 <= j < i ==> Ok(parts[j]) == EncryptBlock(rk, Slice(blockIn, j))
        invariant res[..i * 16] == Flatten(parts)
      {
        var tmpRes := Encrypt(blockIn[i * 16..i * 16 + 16]);
        var tmp := tmpRes.value;
        ghost var before := res[..i * 16];
        CopyBlock(res, i * 16, tmp);
        assert Slice(blockIn, i) == blockIn[i * 16..i * 16 + 16];
        PartsPush(rk, blockIn, parts, tmp);
        FlattenPush(parts, tmp);
        parts := parts + [tmp];
      }
      FlattenBatch(rk, blockIn, parts);
      assert res[..] == res[..64];
      r := Ok(res[..]);
    }
  }
}
