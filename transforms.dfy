/**
 * The word transforms of SM4 (sections 6.2.1 and 6.2.2 of GB/T 32907-2016):
 * the non-linear substitution tau, the two linear diffusion maps and their
 * compositions, the round function T and the key-schedule function T'.
 */
module Sm4Transforms {
  import opened Sm4Tables
  import opened Sm4Pack

  /** Every byte of `r` is the S-box image of the byte of `x` at the same position. */
  ghost predicate SubstitutesBytes(x: bv32, r: bv32) {
    var b, s := Split(x), Split(r);
    s[0] == Sbox(b[0]) && s[1] == Sbox(b[1]) && s[2] == Sbox(b[2]) && s[3] == Sbox(b[3])
  }

  /** `tau_trans` as a value: split, substitute each byte, combine. */
  function Tau(x: bv32): (r: bv32)
    ensures SubstitutesBytes(x, r)
  {
    var b := Split(x);
    var s := [Sbox(b[0]), Sbox(b[1]), Sbox(b[2]), Sbox(b[3])];
    SplitCombine(s);
    Combine(s)
  }

  /**
   * `tau_trans`: splits the word, fills a four-byte buffer with the S-box
   * images of its bytes in a loop, and combines the buffer.
   */
  method TauTrans(input: bv32) returns (r: bv32)
    ensures r == Tau(input)
  {
    var b := Split(input);
    var out := new bv8[4];
    for i := 0 to 4
      invariant forall j :: 0 <= j < i ==> out[j] == Sbox(b[j])
    {
      out[i] := Sbox(b[i]);
    }
    TauOfBuffer(input, out[..]);
    r := Combine(out[..]);
  }

  /** A buffer holding the S-box images of the bytes of `x`, in order, combines to tau of `x`. */
  lemma TauOfBuffer(x: bv32, s: seq<bv8>)
    requires |s| == 4 && forall j :: 0 <= j < 4 ==> s[j] == Sbox(Split(x)[j])
    ensures Combine(s) == Tau(x)
  {
    var b := Split(x);
    assert s == [Sbox(b[0]), Sbox(b[1]), Sbox(b[2]), Sbox(b[3])];
  }

  /** `sm4_t_non_lin_sub`: the same substitution, written with shifts and ORs into an accumulator. */
  function NonLinSub(x: bv32): bv32 {
    var t0: bv32 := 0;
    var t1 := t0 | ((Sbox(((x >> 24) & 0xFF) as bv8) as bv32) << 24);
    var t2 := t1 | ((Sbox(((x >> 16) & 0xFF) as bv8) as bv32) << 16);
    var t3 := t2 | ((Sbox(((x >> 8) & 0xFF) as bv8) as bv32) << 8);
    t3 | (Sbox((x & 0xFF) as bv8) as bv32)
  }

  /** The byte-wise substitution determines the word: there is only one such result. */
  lemma SubstitutesBytesUnique(x: bv32, r: bv32, r': bv32)
    requires SubstitutesBytes(x, r) && SubstitutesBytes(x, r')
    ensures r == r'
  {
    assert Split(r) == Split(r');
    SplitInjective(r, r');
  }

  /** `sm4_t_non_lin_sub` puts the S-box image of each byte back at the position of that byte. */
  lemma NonLinSubBytes(x: bv32)
    ensures SubstitutesBytes(x, NonLinSub(x))
  {
    var b := Split(x);
    var s := [Sbox(b[0]), Sbox(b[1]), Sbox(b[2]), Sbox(b[3])];
    NonLinSubIsCombine(x, s);
    SplitCombine(s);
  }

  /** The accumulator of `sm4_t_non_lin_sub` ends up holding the combined S-box images. */
  lemma NonLinSubIsCombine(x: bv32, s: seq<bv8>)
    requires s == [Sbox(Split(x)[0]), Sbox(Split(x)[1]), Sbox(Split(x)[2]), Sbox(Split(x)[3])]
    ensures NonLinSub(x) == Combine(s)
  {
    OrOfShiftedBytes(s[0], s[1], s[2], s[3]);
  }

  /** ORing four bytes into their big-endian positions is `combine`. */
  lemma OrOfShiftedBytes(a: bv8, b: bv8, c: bv8, d: bv8)
    ensures ((a as bv32) << 24) | ((b as bv32) << 16) | ((c as bv32) << 8) | (d as bv32) == Combine([a, b, c, d])
  {
  }

  /** The two implementations of tau agree on every word. */
  lemma TauIsNonLinSub(x: bv32)
    ensures Tau(x) == NonLinSub(x)
  {
    NonLinSubBytes(x);
    SubstitutesBytesUnique(x, Tau(x), NonLinSub(x));
  }

  /**
   * `l_rotate`: left rotation by `i % 32`. The right shift by `32 - i % 32`
   * is only defined when `i % 32 != 0`.
   */
  function LRotate(x: bv32, i: bv32): (r: bv32)
    requires i % 32 != 0
    ensures r == Rotl(x, i % 32)
  {
    (x << (i % 32)) | (x >> (32 - i % 32))
  }

  /** `rotl`: left rotation by `n`, for `0 < n < 32`. */
  function Rotl(a: bv32, n: bv32): (r: bv32)
    requires 0 < n < 32
  {
    (a << n) | (a >> (32 - n))
  }

  /** At every amount the cipher uses, both source rotations are true left rotations. */
  lemma RotationsAtCallSites(x: bv32)
    ensures LRotate(x, 2) == x.RotateLeft(2) && LRotate(x, 10) == x.RotateLeft(10)
    ensures LRotate(x, 18) == x.RotateLeft(18) && LRotate(x, 24) == x.RotateLeft(24)
    ensures Rotl(x, 13) == x.RotateLeft(13) && Rotl(x, 23) == x.RotateLeft(23)
  {
  }

  /** `l_trans`: the linear map L of the round function. */
  function LTrans(b: bv32): bv32 {
    b ^ LRotate(b, 2) ^ LRotate(b, 10) ^ LRotate(b, 18) ^ LRotate(b, 24)
  }

  /** `t_trans`: the round function T, L after tau. */
  function TTrans(x: bv32): bv32 {
    LTrans(Tau(x))
  }

  /** The linear map L' of `sm4_key_sub`, on the substituted word `t`. */
  function LPrimeTrans(t: bv32): bv32 {
    t ^ Rotl(t, 13) ^ Rotl(t, 23)
  }

  /** `sm4_key_sub`: the key-schedule function T', the linear map L' after tau. */
  function KeySub(x: bv32): bv32 {
    var t := NonLinSub(x);
    LPrimeTrans(t)
  }

  /** T' applies the same tau as T, followed by the linear map L'. */
  lemma KeySubUsesTau(x: bv32)
    ensures KeySub(x) == LPrimeTrans(Tau(x))
  {
    TauIsNonLinSub(x);
  }

}
