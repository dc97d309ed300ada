/**
 * The unbalanced Feistel recurrence that SM4 uses twice, once in the key
 * schedule (section 7.3 of GB/T 32907-2016) and once in the block
 * transformation (section 7.1):
 *
 *   X(m + 4) = X(m) ^ F(X(m + 1) ^ X(m + 2) ^ X(m + 3) ^ k(m))
 *
 * with F the key-schedule function T' or the round function T. The cipher
 * keeps only the last four words, so the model works on a window `Quad` of
 * four consecutive words that one round slides forward by one position.
 */
module Sm4Feistel {

  /** Four consecutive words X(m), X(m + 1), X(m + 2), X(m + 3). */
  datatype Quad = Quad(x0: bv32, x1: bv32, x2: bv32, x3: bv32)

  /** The window read from four words. */
  function ToQuad(w: seq<bv32>): (q: Quad)
    requires |w| == 4
    ensures Words(q) == w
  {
    Quad(w[0], w[1], w[2], w[3])
  }

  /** The words of a window, in order. */
  function Words(q: Quad): seq<bv32> {
    [q.x0, q.x1, q.x2, q.x3]
  }

  /** The window in reverse order, the word order of the cipher's output. */
  function Swap(q: Quad): Quad {
    Quad(q.x3, q.x2, q.x1, q.x0)
  }

  /** Word `j` of a window. */
  function At(q: Quad, j: nat): bv32
    requires j < 4
  {
    if j == 0 then q.x0 else if j == 1 then q.x1 else if j == 2 then q.x2 else q.x3
  }

  /** The input of the round function: three consecutive words and the round key. */
  function Mix(a: bv32, b: bv32, c: bv32, k: bv32): bv32 {
    a ^ b ^ c ^ k
  }

  /** One round with round function `f` and round key `k`: the new word enters at the end. */
  function Round(q: Quad, f: bv32 -> bv32, k: bv32): Quad {
    Quad(q.x1, q.x2, q.x3, q.x0 ^ f(Mix(q.x1, q.x2, q.x3, k)))
  }

  /** The window after the first `n` rounds, using `keys[0]`, ..., `keys[n - 1]` in that order. */
  function Iterate(q: Quad, f: bv32 -> bv32, keys: seq<bv32>, n: nat): Quad
    requires n <= |keys|
  {
    if n == 0 then q else Round(Iterate(q, f, keys, n - 1), f, keys[n - 1])
  }

  /** The words that enter the window, one per round: X(4), ..., X(n + 3). */
  function Trace(q: Quad, f: bv32 -> bv32, keys: seq<bv32>, n: nat): (r: seq<bv32>)
    requires n <= |keys|
    ensures |r| == n
  {
    if n == 0 then [] else Trace(q, f, keys, n - 1) + [Iterate(q, f, keys, n).x3]
  }

  /**
   * Word `m` of the recurrence: X(0..3) are the words of `q`, and X(m) for
   * `m >= 4` is the word that round `m - 4` brings into the window.
   */
  ghost function X(q: Quad, f: bv32 -> bv32, keys: seq<bv32>, m: nat): bv32
    requires m < |keys| + 4
  {
    if m < 4 then At(q, m) else Iterate(q, f, keys, m - 3).x3
  }

  /** The keys in reverse order. */
  function Reversed(keys: seq<bv32>): (r: seq<bv32>)
    ensures |r| == |keys|
    ensures forall i :: 0 <= i < |keys| ==> r[i] == keys[|keys| - 1 - i]
  {
    if keys == [] then [] else Reversed(keys[1..]) + [keys[0]]
  }

  /** Key `j` of the reversed keys is key `|keys| - 1 - j`. */
  lemma ReversedAt(keys: seq<bv32>, j: nat)
    requires j < |keys|
    ensures Reversed(keys)[j] == keys[|keys| - 1 - j]
  {
  }

  /** Reversing twice gives the keys back. */
  lemma ReversedReversed(keys: seq<bv32>)
    ensures Reversed(Reversed(keys)) == keys
  {
  }

  /** After `n` rounds the window holds X(n), ..., X(n + 3). */
  lemma {:induction false} IterateWindow(q: Quad, f: bv32 -> bv32, keys: seq<bv32>, n: nat)
    requires n <= |keys|
    ensures Iterate(q, f, keys, n) == Quad(X(q, f, keys, n), X(q, f, keys, n + 1), X(q, f, keys, n + 2), X(q, f, keys, n + 3))
  {
    if n > 0 {
      IterateWindow(q, f, keys, n - 1);
    }
  }

  /**
   * The words satisfy the recurrence of the standard: every word from X(4)
   * on is computed from the four words before it.
   */
  lemma XRecurrence(q: Quad, f: bv32 -> bv32, keys: seq<bv32>, m: nat)
    requires 4 <= m < |keys| + 4
    ensures X(q, f, keys, m) == X(q, f, keys, m - 4) ^ f(Mix(X(q, f, keys, m - 3), X(q, f, keys, m - 2), X(q, f, keys, m - 1), keys[m - 4]))
  {
    IterateWindow(q, f, keys, m - 4);
  }

  /** Word `m` of the trace is the word X(m + 4) that round `m` computes. */
  lemma {:induction false} TraceAt(q: Quad, f: bv32 -> bv32, keys: seq<bv32>, n: nat, m: nat)
    requires m < n <= |keys|
    ensures Trace(q, f, keys, n)[m] == X(q, f, keys, m + 4)
  {
    if m < n - 1 {
      TraceAt(q, f, keys, n - 1, m);
    } else {
      IterateWindow(q, f, keys, n);
    }
  }

  /**
   * A round undoes itself once the window is reversed: running the same
   * round on the reversed result gives the reversed starting window.
   */
  lemma RoundInverse(q: Quad, f: bv32 -> bv32, k: bv32)
    ensures Round(Swap(Round(q, f, k)), f, k) == Swap(q)
  {
    MixReversed(q.x1, q.x2, q.x3, k);
    XorTwice(q.x0, f(Mix(q.x1, q.x2, q.x3, k)));
  }

  /** A round on four given words: the first drops out, the new word enters at the end. */
  lemma RoundWords(a: bv32, b: bv32, c: bv32, d: bv32, f: bv32 -> bv32, k: bv32)
    ensures Round(Quad(a, b, c, d), f, k) == Quad(b, c, d, a ^ f(b ^ c ^ d ^ k))
  {
  }

  /** The trace after four more rounds: the words those rounds bring into the window. */
  lemma TraceFour(q: Quad, f: bv32 -> bv32, keys: seq<bv32>, n: nat)
    requires n + 4 <= |keys|
    ensures Trace(q, f, keys, n + 4) == Trace(q, f, keys, n) +
      [Iterate(q, f, keys, n + 1).x3, Iterate(q, f, keys, n + 2).x3, Iterate(q, f, keys, n + 3).x3, Iterate(q, f, keys, n + 4).x3]
  {
    assert Trace(q, f, keys, n + 4) == Trace(q, f, keys, n + 3) + [Iterate(q, f, keys, n + 4).x3];
    assert Trace(q, f, keys, n + 3) == Trace(q, f, keys, n + 2) + [Iterate(q, f, keys, n + 3).x3];
    assert Trace(q, f, keys, n + 2) == Trace(q, f, keys, n + 1) + [Iterate(q, f, keys, n + 2).x3];
  }

  /**
   * Pass `i` of the cipher's loops: starting from the window after `4 * i`
   * rounds, four rounds with keys `k0`, ..., `k3` that compute `y0`, ...,
   * `y3` reach the window after `4 * (i + 1)` rounds, and the trace grows
   * by those four words.
   */
  lemma IteratePass(q: Quad, f: bv32 -> bv32, keys: seq<bv32>, i: nat, x0: bv32, x1: bv32, x2: bv32, x3: bv32,
                    k0: bv32, k1: bv32, k2: bv32, k3: bv32, y0: bv32, y1: bv32, y2: bv32, y3: bv32)
    requires i * 4 + 4 <= |keys|
    requires k0 == keys[i * 4] && k1 == keys[i * 4 + 1] && k2 == keys[i * 4 + 2] && k3 == keys[i * 4 + 3]
    requires Iterate(q, f, keys, i * 4) == Quad(x0, x1, x2, x3)
    requires Round(Quad(x0, x1, x2, x3), f, k0) == Quad(x1, x2, x3, y0)
    requires Round(Quad(x1, x2, x3, y0), f, k1) == Quad(x2, x3, y0, y1)
    requires Round(Quad(x2, x3, y0, y1), f, k2) == Quad(x3, y0, y1, y2)
    requires Round(Quad(x3, y0, y1, y2), f, k3) == Quad(y0, y1, y2, y3)
    ensures Iterate(q, f, keys, (i + 1) * 4) == Quad(y0, y1, y2, y3)
    ensures Trace(q, f, keys, (i + 1) * 4) == Trace(q, f, keys, i * 4) + [y0, y1, y2, y3]
  {
    var n := i * 4;
    assert Iterate(q, f, keys, n + 1) == Quad(x1, x2, x3, y0);
    assert Iterate(q, f, keys, n + 2) == Quad(x2, x3, y0, y1);
    assert Iterate(q, f, keys, n + 3) == Quad(x3, y0, y1, y2);
    assert Iterate(q, f, keys, n + 4) == Quad(y0, y1, y2, y3);
    TraceFour(q, f, keys, n);
    assert (i + 1) * 4 == n + 4;
  }

  /** The round-function input does not depend on the order of the three words. */
  lemma MixReversed(a: bv32, b: bv32, c: bv32, k: bv32)
    ensures Mix(c, b, a, k) == Mix(a, b, c, k)
  {
  }

  /** XORing the same word twice cancels. */
  lemma XorTwice(a: bv32, y: bv32)
    ensures (a ^ y) ^ y == a
  {
  }

  /**
   * Running `n` rounds with the keys reversed on the reversed final window
   * reaches the reversed window from `n` rounds before the end.
   */
  lemma {:induction false} IterateInverse(q: Quad, f: bv32 -> bv32, keys: seq<bv32>, n: nat)
    requires n <= |keys|
    ensures Iterate(Swap(Iterate(q, f, keys, |keys|)), f, Reversed(keys), n) == Swap(Iterate(q, f, keys, |keys| - n))
  {
    if n > 0 {
      IterateInverse(q, f, keys, n - 1);
      var m := |keys| - n;
      RoundInverse(Iterate(q, f, keys, m), f, keys[m]);
    }
  }

  /**
   * The Feistel structure is invertible with the same round function: the
   * rounds with reversed keys, applied to the reversed output, give back the
   * reversed input.
   */
  lemma FeistelInverse(q: Quad, f: bv32 -> bv32, keys: seq<bv32>)
    ensures Iterate(Swap(Iterate(q, f, keys, |keys|)), f, Reversed(keys), |keys|) == Swap(q)
  {
    IterateInverse(q, f, keys, |keys|);
  }
}
