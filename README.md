# SM4 block cipher engine — a Dafny model

This project models the scalar core of the SM4 block cipher engine
`Sm4Cipher` in `src/sm4/cipher.rs`, following GB/T 32907-2016. The model
covers:

- the big-endian conversions between bytes and 32-bit words (`split`,
  `combine`, `split_block`, `combine_block`);
- the word transforms: the S-box substitution tau, written twice in the
  source as `tau_trans` and `sm4_t_non_lin_sub`; the two rotations
  `l_rotate` and `rotl`; the linear map `l_trans`; the round function
  `t_trans`; and the key-schedule function `sm4_key_sub`;
- key expansion (`Sm4Cipher::new`): FK whitening, then eight passes of four
  in-place updates with CK. These push the 32 round keys.
- `encrypt` and `decrypt` of one 16-byte block, each as 32 in-place word
  updates;
- the portable path of the four-block batch `encrypt_sm4ni`.

Both the key schedule and the block transformation are instances of one
unbalanced Feistel recurrence, `X(m + 4) = X(m) ^ F(X(m + 1) ^ X(m + 2) ^
X(m + 3) ^ k(m))`. Module `Sm4Feistel` defines it once, over a four-word
window `Quad` and a round function passed as a value: T' (`KeySub`) for the
key schedule, T (`TTrans`) for the cipher.

The imperative parts stay imperative:
- `Sm4Cipher` is a class with an `rk` field.
- `new`, `encrypt`, `decrypt` and `encrypt_sm4ni` are methods with the
  source's loops.
- `split_block`, `combine_block` and `tau_trans` fill arrays in loops.

Each method is proved against a functional specification. The properties
of that specification are then proved as lemmas:
- decryption inverts encryption, in both directions;
- the two tau implementations agree;
- both rotations are true left rotations at every amount the cipher uses;
- the byte/word conversions are mutual inverses;
- round key `i` is the word K(i + 4) of the standard's recurrence;
- every block of the batch output is the encryption of the matching input
  block.

The known-answer vectors of the source's unit tests are proved about the
model: the round keys, the ciphertext, the decryption and the four-block
batch. These vectors are the example of appendix A.1 of GB/T 32907-2016.

Files:
- `types.dfy`: the error kinds and `Result`.
- `tables.dfy`: SBOX, FK and CK.
- `pack.dfy`: the byte/word conversions.
- `transforms.dfy`: tau, the rotations, L, T and T'.
- `feistel.dfy`: the recurrence and its inverse.
- `cipher.dfy`: the engine.
- `vectors.dfy`: the known answers.

Two behaviours of the code are worth noting:
- No code path produces `ErrorKeySize`: a key whose length is not 16 is
  rejected with `ErrorBlockSize`, because `new` reuses `split_block`.
- The batch input has type `[u8; 64]`, so a wrong batch length cannot occur
  in the code. The model therefore states that length as a precondition,
  with no error path for it.

## Model

| member | source | states |
|---|---|---|
| Sm4Pack.Split | src/sm4/cipher.rs:36-43 | `split` returns four bytes, most significant first; their value and the round trip with `combine` are stated by `SplitValue` and `CombineSplit` |
| Sm4Pack.Combine | src/sm4/cipher.rs:45-50 | `combine` ORs the first four bytes into their big-endian positions; what that computes is stated by `CombineValue` and `SplitCombine` |
| Sm4Pack.CombineValue | src/sm4/cipher.rs:45-50 | `combine` returns the big-endian value of the first four bytes, ignoring any later bytes |
| Sm4Pack.SplitValue | src/sm4/cipher.rs:36-43 | the big-endian value of the four bytes `split` returns is the word itself |
| Sm4Pack.CombineSplit | src/sm4/cipher.rs:36-50 | combining the bytes of a split word gives the word back |
| Sm4Pack.SplitCombine | src/sm4/cipher.rs:36-50 | splitting a combined four-byte sequence gives the bytes back |
| Sm4Pack.SplitInjective | src/sm4/cipher.rs:36-43 | `split` is injective |
| Sm4Pack.WordsBytesAt | src/sm4/cipher.rs:65-74 | byte `4i + j` of a serialised block is byte `j` of word `i` |
| Sm4Pack.BlockWordsOfWordsBytes | src/sm4/cipher.rs:52-74 | reading back the 16 bytes written for four words gives those words |
| Sm4Pack.WordsBytesOfBlockWords | src/sm4/cipher.rs:52-74 | writing out the four words read from a 16-byte block gives the block |
| Sm4Pack.SplitBlock | src/sm4/cipher.rs:52-63 | `ErrorBlockSize` exactly when the input length is not 16; otherwise the four big-endian words, which serialise back to the input |
| Sm4Pack.CombineBlock | src/sm4/cipher.rs:65-74 | always `Ok`, holding the big-endian bytes of the first four words in order |
| Sm4Pack.CombineBlockValue | src/sm4/cipher.rs:67-72 | the array the nested loops fill is the serialisation of the first four words |
| Sm4Tables.LookupIndex | src/sm4/cipher.rs:17-34 | the table walk behind `Sbox` returns the table entry at the index |
| Sm4Transforms.Tau | src/sm4/cipher.rs:283-290 | every byte of the result is the S-box image of the input byte at the same position |
| Sm4Transforms.TauTrans | src/sm4/cipher.rs:283-290 | the buffer-filling loop of `tau_trans` computes tau |
| Sm4Transforms.TauOfBuffer | src/sm4/cipher.rs:285-289 | a buffer holding the S-box images of the bytes of `x`, in order, combines to tau of `x` |
| Sm4Transforms.SubstitutesBytesUnique | src/sm4/cipher.rs:283-290 | the byte-wise substitution determines the result word uniquely |
| Sm4Transforms.NonLinSub | src/sm4/cipher.rs:325-334 | `sm4_t_non_lin_sub`: four S-box lookups shifted and ORed into an accumulator; its meaning is stated by `NonLinSubBytes` and `TauIsNonLinSub` |
| Sm4Transforms.NonLinSubBytes | src/sm4/cipher.rs:325-334 | `sm4_t_non_lin_sub` puts the S-box image of each byte at that byte's position |
| Sm4Transforms.NonLinSubIsCombine | src/sm4/cipher.rs:325-334 | the shift-and-OR accumulator equals `combine` of the four substituted bytes |
| Sm4Transforms.OrOfShiftedBytes | src/sm4/cipher.rs:328-331 | ORing four bytes shifted into their big-endian positions is `combine` |
| Sm4Transforms.TauIsNonLinSub | src/sm4/cipher.rs:325-334 | `sm4_t_non_lin_sub` and `tau_trans` agree on every word |
| Sm4Transforms.LRotate | src/sm4/cipher.rs:292-294 | `l_rotate`: the left shift by `i % 32` ORed with the complementary right shift; that this is a true rotation at 2, 10, 18 and 24 is stated by `RotationsAtCallSites` |
| Sm4Transforms.Rotl | src/sm4/cipher.rs:336-338 | `rotl`: the left shift ORed with the complementary right shift; that this is a true rotation at 13 and 23 is stated by `RotationsAtCallSites` |
| Sm4Transforms.LTrans | src/sm4/cipher.rs:296-299 | `l_trans`: the word XORed with its rotations by 2, 10, 18 and 24 (through `LRotate`, whose amounts `RotationsAtCallSites` shows are true rotations) |
| Sm4Transforms.TTrans | src/sm4/cipher.rs:301-303 | `t_trans`: L after tau; the cipher's invertibility does not depend on it (`FeistelInverse` holds for every round function) |
| Sm4Transforms.LPrimeTrans | src/sm4/cipher.rs:322 | the linear part of `sm4_key_sub`: the word XORed with its `rotl` rotations by 13 and 23 |
| Sm4Transforms.KeySub | src/sm4/cipher.rs:319-323 | `sm4_key_sub`: L' after `sm4_t_non_lin_sub`; `KeySubUsesTau` states that this is the same tau as in T |
| Sm4Transforms.KeySubUsesTau | src/sm4/cipher.rs:319-323 | T' applies to every word the same substitution tau that `t_trans` applies (through `tau_trans`), followed by L' |
| Sm4Transforms.RotationsAtCallSites | src/sm4/cipher.rs:292-338 | at the amounts 2, 10, 18, 24 (in `l_trans`) and 13, 23 (in `sm4_key_sub`), both rotations are true 32-bit left rotations |
| Sm4Feistel.ToQuad | src/sm4/cipher.rs:362 | the window read from four words lists those words in order |
| Sm4Feistel.Round | src/sm4/cipher.rs:365-368 | one in-place update `x[j] ^= F(x[j+1] ^ x[j+2] ^ x[j+3] ^ k)` as a slide of the four-word window; its inverse is stated by `RoundInverse` |
| Sm4Feistel.Iterate | src/sm4/cipher.rs:364-369 | the window after the first `n` rounds with keys taken in order; its words are stated by `IterateWindow` and `XRecurrence`, its inverse by `FeistelInverse` |
| Sm4Feistel.Reversed | src/sm4/cipher.rs:411-422 | the reversed keys have the same length, and key `i` is key `n - 1 - i` |
| Sm4Feistel.ReversedReversed | src/sm4/cipher.rs:411-422 | reversing the keys twice gives them back |
| Sm4Feistel.IterateWindow | src/sm4/cipher.rs:361-372 | after `n` rounds the window holds X(n), ..., X(n + 3) |
| Sm4Feistel.XRecurrence | src/sm4/cipher.rs:364-369 | every word from X(4) on satisfies the recurrence `X(m) = X(m - 4) ^ F(X(m - 3) ^ X(m - 2) ^ X(m - 1) ^ k(m - 4))` |
| Sm4Feistel.TraceAt | src/sm4/cipher.rs:347-356 | word `m` of the pushed sequence is X(m + 4) |
| Sm4Feistel.RoundInverse | src/sm4/cipher.rs:411-422 | the same round, applied to the reversed output, gives the reversed input |
| Sm4Feistel.TraceFour | src/sm4/cipher.rs:352-355 | four more rounds add the four words they bring into the window to the trace |
| Sm4Feistel.IteratePass | src/sm4/cipher.rs:347-356 | four in-place updates move the window forward four rounds and extend the trace by the four new words |
| Sm4Feistel.IterateInverse | src/sm4/cipher.rs:411-422 | `n` reversed-key rounds on the reversed final window reach the reversed window from `n` rounds before the end |
| Sm4Feistel.FeistelInverse | src/sm4/cipher.rs:411-422 | the whole recurrence is inverted by running it with reversed keys on the reversed output |
| Sm4.KeyExpansion | src/sm4/cipher.rs:341-359 | key expansion yields exactly 32 round keys |
| Sm4.KeyExpansionRecurrence | src/sm4/cipher.rs:347-356 | round key `i` is the word K(i + 4) of the key-schedule recurrence with T' and CK |
| Sm4.BlockQuadOfQuadBlock | src/sm4/cipher.rs:370-371 | reading the output block back gives the reversed final window |
| Sm4.QuadBlockOfSwap | src/sm4/cipher.rs:370-371 | writing out a block's reversed window in reverse word order gives the block |
| Sm4.EncryptBlock | src/sm4/cipher.rs:361-372 | `ErrorBlockSize` exactly when the block length is not 16; otherwise a 16-byte result |
| Sm4.DecryptBlock | src/sm4/cipher.rs:411-422 | `ErrorBlockSize` exactly when the block length is not 16; otherwise a 16-byte result |
| Sm4.EncryptBlockWords | src/sm4/cipher.rs:361-372 | the ciphertext is X(35), X(34), X(33), X(32) of the round recurrence, each big-endian |
| Sm4.DecryptEncrypt | src/sm4/cipher.rs:411-422 | decrypting the encryption of a 16-byte block under the same round keys gives the block |
| Sm4.EncryptDecrypt | src/sm4/cipher.rs:361-372 | encrypting the decryption of a 16-byte block under the same round keys gives the block |
| Sm4.Slice | src/sm4/cipher.rs:403 | each slice of a 64-byte batch has 16 bytes |
| Sm4.BatchBlock | src/sm4/cipher.rs:403 | the encryption of each batch block has 16 bytes |
| Sm4.EncryptBatch | src/sm4/cipher.rs:397-409 | the batch output has 64 bytes |
| Sm4.QuartersSlice | src/sm4/cipher.rs:402-407 | four 16-byte parts laid end to end are cut back out at offsets 0, 16, 32 and 48 |
| Sm4.EncryptBatchSlice | src/sm4/cipher.rs:402-407 | block `i` of the batch output is the encryption of block `i` of the input |
| Sm4.FlattenPush | src/sm4/cipher.rs:404-406 | appending one more part extends the output by exactly that part |
| Sm4.FlattenFour | src/sm4/cipher.rs:402-407 | four parts laid end to end form their concatenation |
| Sm4.PartsPush | src/sm4/cipher.rs:402-407 | after one more iteration, the encryptions held are those of blocks 0 to `i` |
| Sm4.FlattenBatch | src/sm4/cipher.rs:402-408 | the four block encryptions, laid end to end, are the batch output |
| Sm4.DecryptBatch | src/sm4/cipher.rs:397-422 | every 16-byte block of the batch output decrypts to the matching input block |
| Sm4.ReversedKeys | src/sm4/cipher.rs:415-418 | the keys of pass `i` of `decrypt` are the keys of pass `i` over the reversed round keys |
| Sm4.KeySubPass | src/sm4/cipher.rs:347-356 | one pass of `new` advances the key window four rounds and pushes the next four round keys |
| Sm4.TTransPass | src/sm4/cipher.rs:364-369 | one pass of `encrypt` or `decrypt` advances the block window four rounds |
| Sm4.Sm4Cipher.Empty | src/sm4/cipher.rs:343 | a new engine starts with no round keys |
| Sm4.Sm4Cipher.Whiten | src/sm4/cipher.rs:344-346 | the FK loop turns the key words into K(0), ..., K(3) |
| Sm4.Sm4Cipher.New | src/sm4/cipher.rs:341-359 | fails exactly when the key length is not 16, with `ErrorBlockSize`; otherwise a fresh engine whose 32 round keys are K(4), ..., K(35) of the key schedule |
| Sm4.Sm4Cipher.Encrypt | src/sm4/cipher.rs:361-372 | the in-place loop returns `EncryptBlock` of the round keys: `ErrorBlockSize` for a wrong length, otherwise 32 rounds with the keys ascending and the words written out reversed |
| Sm4.Sm4Cipher.Decrypt | src/sm4/cipher.rs:411-422 | the in-place loop returns `DecryptBlock`: the same rounds with the keys descending, which undoes `Encrypt` |
| Sm4.Sm4Cipher.CopyBlock | src/sm4/cipher.rs:404-406 | the 16 bytes are copied after the bytes already written, which stay unchanged |
| Sm4.Sm4Cipher.EncryptSm4ni | src/sm4/cipher.rs:397-409 | the portable batch returns `Ok` of the four blocks encrypted one by one, in order |
| Sm4Vectors.SboxAt | src/sm4/cipher.rs:17-34 | `Sbox` of a byte is the table entry at that byte |
| Sm4Vectors.KeyStartVector | src/sm4/cipher.rs:431-442 | for the test key, the FK-whitened words are a292ffa1 df01febf 99a12b0f c42410cc |
| Sm4Vectors.RoundKeysVector | src/sm4/cipher.rs:431-442 | for the test key, all 32 round keys are those of appendix A.1 |
| Sm4Vectors.SetupCipherVector | src/sm4/cipher.rs:431-442 | for the test key, rk[0] = f12186f9 and rk[31] = 9124a012 |
| Sm4Vectors.BlockStartVector | src/sm4/cipher.rs:443-472 | the plaintext words of the test are 01234567 89abcdef fedcba98 76543210 |
| Sm4Vectors.CiphertextVector | src/sm4/cipher.rs:443-472 | the final window of the test serialises, reversed, to the expected ciphertext |
| Sm4Vectors.EncryptVector | src/sm4/cipher.rs:443-472 | the test plaintext encrypts to 681edf34d206965e86b3e94f536e4246 |
| Sm4Vectors.DecryptVector | src/sm4/cipher.rs:443-472 | the test ciphertext decrypts to the plaintext |
| Sm4Vectors.BatchVector | src/sm4/cipher.rs:473-501 | four copies of the test plaintext batch-encrypt to four copies of the ciphertext |

## Left out

- `sm4_crypt_affine_ni` (src/sm4/cipher.rs:76-281) is left out. It is the x86 SIMD path built on SSE/AES-NI intrinsics and `unsafe` memory access, which the model does not represent.
- The `is_x86_feature_detected!` test and the `cfg` split between targets are left out. Both `encrypt_sm4ni` variants run the same loop on the portable path, and that loop is what `Sm4.Sm4Cipher.EncryptSm4ni` models. That the accelerated path produces the same output is not modelled.
- Sm4.Sm4Cipher.EncryptSm4ni: the `?` after `encrypt` is modelled as unwrapping the value, because every slice has 16 bytes and the error can never occur.
- Sm4.Sm4Cipher.EncryptSm4ni: requires a 64-byte input, because the source's parameter type `[u8; 64]` already guarantees it. The model has no error path for a wrong batch length because the code has none.
- Sm4Transforms.LRotate: requires `i % 32 != 0`, because the right shift by 32 that `l_rotate` would otherwise perform overflows in Rust. The function is only called with 2, 10, 18 and 24.
- Sm4Transforms.Rotl: requires `0 < n < 32` for the same reason. It is only called with 13 and 23.
- Sm4Pack.Combine: requires at least four bytes, where the source would panic on its index. Every call site passes four bytes.
- Sm4Pack.CombineBlock: requires at least four words, where the source would panic on its index. Its only callers pass four words.
- Sm4.Sm4Cipher.Encrypt and Sm4.Sm4Cipher.Decrypt: require `Valid()`, meaning 32 round keys. The field is private, and `new` is the only way the source builds an engine.
- The four-word working state `[u32; 4]` of `new`, `encrypt` and `decrypt` is held in four local variables, because the 32 round updates only index it with constants. The FK loop, which indexes it with `i`, is the helper method `Whiten`, which holds the words in a sequence. The copying loop of `encrypt_sm4ni` is the helper method `CopyBlock`.
- Sm4Feistel.X: the recurrence word X(m) is a ghost function, used only to state properties.
- The error-kind module `crate::sm4::error` is not part of this model. `Sm4Types.Sm4Error` represents the two error kinds by name only, and the cipher only ever produces `ErrorBlockSize`; any message the kinds may carry is not modelled.
- The S-box, FK and CK constants are taken from the source as written. Only their use in the appendix A.1 vectors is proved, not their derivation in the standard.
- The linearity of L and L', and their equality with the standard's rotation formulas, are stated only at the rotation amounts used (`RotationsAtCallSites`).
