/**
 * The known-answer vectors of the unit tests of src/sm4/cipher.rs, which
 * are the example of appendix A.1 of GB/T 32907-2016: key and plaintext
 * 01 23 45 67 89 ab cd ef fe dc ba 98 76 54 32 10.
 *
 * The words of the key schedule and of the block transformation are
 * listed round by round; each round is checked against the model's own
 * definitions (S-box entries, T, T' and the round structure), and the
 * rounds are chained into the statements of the three tests.
 *
 * The facts are deliberately small: one lemma per S-box entry used, one per
 * round and one per window. Each lemma then carries only a few bit-vector
 * facts, which keeps every proof obligation cheap for the verifier; a
 * single lemma evaluating all 32 rounds at once is far beyond its budget.
 */
module Sm4Vectors {
  import opened Sm4Types
  import opened Sm4Tables
  import opened Sm4Pack
  import opened Sm4Transforms
  import opened Sm4Feistel
  import opened Sm4

  /** The key of the tests. */
  const KEY: seq<bv8> := [0x01, 0x23, 0x45, 0x67, 0x89, 0xab, 0xcd, 0xef, 0xfe, 0xdc, 0xba, 0x98, 0x76, 0x54, 0x32, 0x10]

  /** The plaintext of the tests (the same bytes as the key). */
  const PLAINTEXT: seq<bv8> := [0x01, 0x23, 0x45, 0x67, 0x89, 0xab, 0xcd, 0xef, 0xfe, 0xdc, 0xba, 0x98, 0x76, 0x54, 0x32, 0x10]

  /** The expected ciphertext of the tests. */
  const CIPHERTEXT: seq<bv8> := [0x68, 0x1e, 0xdf, 0x34, 0xd2, 0x06, 0x96, 0x5e, 0x86, 0xb3, 0xe9, 0x4f, 0x53, 0x6e, 0x42, 0x46]

  /** K(0), ..., K(3): the key words XORed with FK. */
  const KEY_START: Quad := Quad(0xa292ffa1, 0xdf01febf, 0x99a12b0f, 0xc42410cc)

  /** X(0), ..., X(3): the plaintext words. */
  const BLOCK_START: Quad := Quad(0x01234567, 0x89abcdef, 0xfedcba98, 0x76543210)

  /** The round keys K(4), ..., K(35), four per row. */
  const ROUND_KEYS_0: seq<bv32> := [0xf12186f9, 0x41662b61, 0x5a6ab19a, 0x7ba92077]
  const ROUND_KEYS_1: seq<bv32> := [0x367360f4, 0x776a0c61, 0xb6bb89b3, 0x24763151]
  const ROUND_KEYS_2: seq<bv32> := [0xa520307c, 0xb7584dbd, 0xc30753ed, 0x7ee55b57]
  const ROUND_KEYS_3: seq<bv32> := [0x6988608c, 0x30d895b7, 0x44ba14af, 0x104495a1]
  const ROUND_KEYS_4: seq<bv32> := [0xd120b428, 0x73b55fa3, 0xcc874966, 0x92244439]
  const ROUND_KEYS_5: seq<bv32> := [0xe89e641f, 0x98ca015a, 0xc7159060, 0x99e1fd2e]
  const ROUND_KEYS_6: seq<bv32> := [0xb79bd80c, 0x1d2115b0, 0x0e228aeb, 0xf1780c81]
  const ROUND_KEYS_7: seq<bv32> := [0x428d3654, 0x62293496, 0x01cf72e5, 0x9124a012]

  /** All 32 round keys. */
  const ROUND_KEYS: seq<bv32> := ROUND_KEYS_0 + ROUND_KEYS_1 + ROUND_KEYS_2 + ROUND_KEYS_3 + ROUND_KEYS_4 + ROUND_KEYS_5 + ROUND_KEYS_6 + ROUND_KEYS_7

  /** `Sbox` is the entry of the table at the byte. */
  lemma SboxAt(b: bv8)
    ensures Sbox(b) == SBOX[b as int]
  {
    LookupIndex(SBOX, b as int);
  }

  // The S-box entries the vectors use.

  lemma Sbox00()
    ensures Sbox(0x00) == 0xd6
  {
    SboxAt(0x00);
  }

  lemma Sbox01()
    ensures Sbox(0x01) == 0x90
  {
    SboxAt(0x01);
  }

  lemma Sbox02()
    ensures Sbox(0x02) == 0xe9
  {
    SboxAt(0x02);
  }

  lemma Sbox03()
    ensures Sbox(0x03) == 0xfe
  {
    SboxAt(0x03);
  }

  lemma Sbox04()
    ensures Sbox(0x04) == 0xcc
  {
    SboxAt(0x04);
  }

  lemma Sbox05()
    ensures Sbox(0x05) == 0xe1
  {
    SboxAt(0x05);
  }

  lemma Sbox06()
    ensures Sbox(0x06) == 0x3d
  {
    SboxAt(0x06);
  }

  lemma Sbox07()
    ensures Sbox(0x07) == 0xb7
  {
    SboxAt(0x07);
  }

  lemma Sbox09()
    ensures Sbox(0x09) == 0xb6
  {
    SboxAt(0x09);
  }

  lemma Sbox0b()
    ensures Sbox(0x0b) == 0xc2
  {
    SboxAt(0x0b);
  }

  lemma Sbox0e()
    ensures Sbox(0x0e) == 0x2c
  {
    SboxAt(0x0e);
  }

  lemma Sbox10()
    ensures Sbox(0x10) == 0x2b
  {
    SboxAt(0x10);
  }

  lemma Sbox11()
    ensures Sbox(0x11) == 0x67
  {
    SboxAt(0x11);
  }

  lemma Sbox12()
    ensures Sbox(0x12) == 0x9a
  {
    SboxAt(0x12);
  }

  lemma Sbox14()
    ensures Sbox(0x14) == 0x2a
  {
    SboxAt(0x14);
  }

  lemma Sbox19()
    ensures Sbox(0x19) == 0x44
  {
    SboxAt(0x19);
  }

  lemma Sbox1a()
    ensures Sbox(0x1a) == 0x13
  {
    SboxAt(0x1a);
  }

  lemma Sbox1b()
    ensures Sbox(0x1b) == 0x26
  {
    SboxAt(0x1b);
  }

  lemma Sbox1c()
    ensures Sbox(0x1c) == 0x49
  {
    SboxAt(0x1c);
  }

  lemma Sbox1d()
    ensures Sbox(0x1d) == 0x86
  {
    SboxAt(0x1d);
  }

  lemma Sbox1e()
    ensures Sbox(0x1e) == 0x06
  {
    SboxAt(0x1e);
  }

  lemma Sbox1f()
    ensures Sbox(0x1f) == 0x99
  {
    SboxAt(0x1f);
  }

  lemma Sbox21()
    ensures Sbox(0x21) == 0x42
  {
    SboxAt(0x21);
  }

  lemma Sbox23()
    ensures Sbox(0x23) == 0xf4
  {
    SboxAt(0x23);
  }

  lemma Sbox27()
    ensures Sbox(0x27) == 0x7a
  {
    SboxAt(0x27);
  }

  lemma Sbox2a()
    ensures Sbox(0x2a) == 0x0b
  {
    SboxAt(0x2a);
  }

  lemma Sbox2c()
    ensures Sbox(0x2c) == 0xed
  {
    SboxAt(0x2c);
  }

  lemma Sbox2d()
    ensures Sbox(0x2d) == 0xcf
  {
    SboxAt(0x2d);
  }

  lemma Sbox2e()
    ensures Sbox(0x2e) == 0xac
  {
    SboxAt(0x2e);
  }

  lemma Sbox31()
    ensures Sbox(0x31) == 0xb3
  {
    SboxAt(0x31);
  }

  lemma Sbox33()
    ensures Sbox(0x33) == 0xa9
  {
    SboxAt(0x33);
  }

  lemma Sbox37()
    ensures Sbox(0x37) == 0x95
  {
    SboxAt(0x37);
  }

  lemma Sbox38()
    ensures Sbox(0x38) == 0x80
  {
    SboxAt(0x38);
  }

  lemma Sbox3a()
    ensures Sbox(0x3a) == 0x94
  {
    SboxAt(0x3a);
  }

  lemma Sbox3d()
    ensures Sbox(0x3d) == 0x8f
  {
    SboxAt(0x3d);
  }

  lemma Sbox40()
    ensures Sbox(0x40) == 0x47
  {
    SboxAt(0x40);
  }

  lemma Sbox41()
    ensures Sbox(0x41) == 0x07
  {
    SboxAt(0x41);
  }

  lemma Sbox42()
    ensures Sbox(0x42) == 0xa7
  {
    SboxAt(0x42);
  }

  lemma Sbox43()
    ensures Sbox(0x43) == 0xfc
  {
    SboxAt(0x43);
  }

  lemma Sbox44()
    ensures Sbox(0x44) == 0xf3
  {
    SboxAt(0x44);
  }

  lemma Sbox45()
    ensures Sbox(0x45) == 0x73
  {
    SboxAt(0x45);
  }

  lemma Sbox47()
    ensures Sbox(0x47) == 0xba
  {
    SboxAt(0x47);
  }

  lemma Sbox4a()
    ensures Sbox(0x4a) == 0x3c
  {
    SboxAt(0x4a);
  }

  lemma Sbox4b()
    ensures Sbox(0x4b) == 0x19
  {
    SboxAt(0x4b);
  }

  lemma Sbox4c()
    ensures Sbox(0x4c) == 0xe6
  {
    SboxAt(0x4c);
  }

  lemma Sbox4e()
    ensures Sbox(0x4e) == 0x4f
  {
    SboxAt(0x4e);
  }

  lemma Sbox4f()
    ensures Sbox(0x4f) == 0xa8
  {
    SboxAt(0x4f);
  }

  lemma Sbox50()
    ensures Sbox(0x50) == 0x68
  {
    SboxAt(0x50);
  }

  lemma Sbox52()
    ensures Sbox(0x52) == 0x81
  {
    SboxAt(0x52);
  }

  lemma Sbox53()
    ensures Sbox(0x53) == 0xb2
  {
    SboxAt(0x53);
  }

  lemma Sbox55()
    ensures Sbox(0x55) == 0x64
  {
    SboxAt(0x55);
  }

  lemma Sbox56()
    ensures Sbox(0x56) == 0xda
  {
    SboxAt(0x56);
  }

  lemma Sbox57()
    ensures Sbox(0x57) == 0x8b
  {
    SboxAt(0x57);
  }

  lemma Sbox58()
    ensures Sbox(0x58) == 0xf8
  {
    SboxAt(0x58);
  }

  lemma Sbox59()
    ensures Sbox(0x59) == 0xeb
  {
    SboxAt(0x59);
  }

  lemma Sbox5a()
    ensures Sbox(0x5a) == 0x0f
  {
    SboxAt(0x5a);
  }

  lemma Sbox5b()
    ensures Sbox(0x5b) == 0x4b
  {
    SboxAt(0x5b);
  }

  lemma Sbox5c()
    ensures Sbox(0x5c) == 0x70
  {
    SboxAt(0x5c);
  }

  lemma Sbox5d()
    ensures Sbox(0x5d) == 0x56
  {
    SboxAt(0x5d);
  }

  lemma Sbox5e()
    ensures Sbox(0x5e) == 0x9d
  {
    SboxAt(0x5e);
  }

  lemma Sbox5f()
    ensures Sbox(0x5f) == 0x35
  {
    SboxAt(0x5f);
  }

  lemma Sbox60()
    ensures Sbox(0x60) == 0x1e
  {
    SboxAt(0x60);
  }

  lemma Sbox62()
    ensures Sbox(0x62) == 0x0e
  {
    SboxAt(0x62);
  }

  lemma Sbox63()
    ensures Sbox(0x63) == 0x5e
  {
    SboxAt(0x63);
  }

  lemma Sbox64()
    ensures Sbox(0x64) == 0x63
  {
    SboxAt(0x64);
  }

  lemma Sbox65()
    ensures Sbox(0x65) == 0x58
  {
    SboxAt(0x65);
  }

  lemma Sbox66()
    ensures Sbox(0x66) == 0xd1
  {
    SboxAt(0x66);
  }

  lemma Sbox67()
    ensures Sbox(0x67) == 0xa2
  {
    SboxAt(0x67);
  }

  lemma Sbox68()
    ensures Sbox(0x68) == 0x25
  {
    SboxAt(0x68);
  }

  lemma Sbox69()
    ensures Sbox(0x69) == 0x22
  {
    SboxAt(0x69);
  }

  lemma Sbox6a()
    ensures Sbox(0x6a) == 0x7c
  {
    SboxAt(0x6a);
  }

  lemma Sbox6b()
    ensures Sbox(0x6b) == 0x3b
  {
    SboxAt(0x6b);
  }

  lemma Sbox6c()
    ensures Sbox(0x6c) == 0x01
  {
    SboxAt(0x6c);
  }

  lemma Sbox6d()
    ensures Sbox(0x6d) == 0x21
  {
    SboxAt(0x6d);
  }

  lemma Sbox6e()
    ensures Sbox(0x6e) == 0x78
  {
    SboxAt(0x6e);
  }

  lemma Sbox70()
    ensures Sbox(0x70) == 0xd4
  {
    SboxAt(0x70);
  }

  lemma Sbox71()
    ensures Sbox(0x71) == 0x00
  {
    SboxAt(0x71);
  }

  lemma Sbox72()
    ensures Sbox(0x72) == 0x46
  {
    SboxAt(0x72);
  }

  lemma Sbox74()
    ensures Sbox(0x74) == 0x9f
  {
    SboxAt(0x74);
  }

  lemma Sbox75()
    ensures Sbox(0x75) == 0xd3
  {
    SboxAt(0x75);
  }

  lemma Sbox76()
    ensures Sbox(0x76) == 0x27
  {
    SboxAt(0x76);
  }

  lemma Sbox78()
    ensures Sbox(0x78) == 0x4c
  {
    SboxAt(0x78);
  }

  lemma Sbox7a()
    ensures Sbox(0x7a) == 0x02
  {
    SboxAt(0x7a);
  }

  lemma Sbox7d()
    ensures Sbox(0x7d) == 0xc4
  {
    SboxAt(0x7d);
  }

  lemma Sbox7e()
    ensures Sbox(0x7e) == 0xc8
  {
    SboxAt(0x7e);
  }

  lemma Sbox7f()
    ensures Sbox(0x7f) == 0x9e
  {
    SboxAt(0x7f);
  }

  lemma Sbox80()
    ensures Sbox(0x80) == 0xea
  {
    SboxAt(0x80);
  }

  lemma Sbox81()
    ensures Sbox(0x81) == 0xbf
  {
    SboxAt(0x81);
  }

  lemma Sbox82()
    ensures Sbox(0x82) == 0x8a
  {
    SboxAt(0x82);
  }

  lemma Sbox83()
    ensures Sbox(0x83) == 0xd2
  {
    SboxAt(0x83);
  }

  lemma Sbox84()
    ensures Sbox(0x84) == 0x40
  {
    SboxAt(0x84);
  }

  lemma Sbox85()
    ensures Sbox(0x85) == 0xc7
  {
    SboxAt(0x85);
  }

  lemma Sbox87()
    ensures Sbox(0x87) == 0xb5
  {
    SboxAt(0x87);
  }

  lemma Sbox8a()
    ensures Sbox(0x8a) == 0xf2
  {
    SboxAt(0x8a);
  }

  lemma Sbox8b()
    ensures Sbox(0x8b) == 0xce
  {
    SboxAt(0x8b);
  }

  lemma Sbox8d()
    ensures Sbox(0x8d) == 0x61
  {
    SboxAt(0x8d);
  }

  lemma Sbox8f()
    ensures Sbox(0x8f) == 0xa1
  {
    SboxAt(0x8f);
  }

  lemma Sbox91()
    ensures Sbox(0x91) == 0xae
  {
    SboxAt(0x91);
  }

  lemma Sbox92()
    ensures Sbox(0x92) == 0x5d
  {
    SboxAt(0x92);
  }

  lemma Sbox93()
    ensures Sbox(0x93) == 0xa4
  {
    SboxAt(0x93);
  }

  lemma Sbox96()
    ensures Sbox(0x96) == 0x1a
  {
    SboxAt(0x96);
  }

  lemma Sbox97()
    ensures Sbox(0x97) == 0x55
  {
    SboxAt(0x97);
  }

  lemma Sbox98()
    ensures Sbox(0x98) == 0xad
  {
    SboxAt(0x98);
  }

  lemma Sbox99()
    ensures Sbox(0x99) == 0x93
  {
    SboxAt(0x99);
  }

  lemma Sbox9a()
    ensures Sbox(0x9a) == 0x32
  {
    SboxAt(0x9a);
  }

  lemma Sbox9b()
    ensures Sbox(0x9b) == 0x30
  {
    SboxAt(0x9b);
  }

  lemma Sbox9d()
    ensures Sbox(0x9d) == 0x8c
  {
    SboxAt(0x9d);
  }

  lemma Sbox9e()
    ensures Sbox(0x9e) == 0xb1
  {
    SboxAt(0x9e);
  }

  lemma Sboxa0()
    ensures Sbox(0xa0) == 0x1d
  {
    SboxAt(0xa0);
  }

  lemma Sboxa1()
    ensures Sbox(0xa1) == 0xf6
  {
    SboxAt(0xa1);
  }

  lemma Sboxa3()
    ensures Sbox(0xa3) == 0x2e
  {
    SboxAt(0xa3);
  }

  lemma Sboxa4()
    ensures Sbox(0xa4) == 0x82
  {
    SboxAt(0xa4);
  }

  lemma Sboxa6()
    ensures Sbox(0xa6) == 0xca
  {
    SboxAt(0xa6);
  }

  lemma Sboxa8()
    ensures Sbox(0xa8) == 0xc0
  {
    SboxAt(0xa8);
  }

  lemma Sboxa9()
    ensures Sbox(0xa9) == 0x29
  {
    SboxAt(0xa9);
  }

  lemma Sboxaa()
    ensures Sbox(0xaa) == 0x23
  {
    SboxAt(0xaa);
  }

  lemma Sboxac()
    ensures Sbox(0xac) == 0x0d
  {
    SboxAt(0xac);
  }

  lemma Sboxaf()
    ensures Sbox(0xaf) == 0x6f
  {
    SboxAt(0xaf);
  }

  lemma Sboxb0()
    ensures Sbox(0xb0) == 0xd5
  {
    SboxAt(0xb0);
  }

  lemma Sboxb1()
    ensures Sbox(0xb1) == 0xdb
  {
    SboxAt(0xb1);
  }

  lemma Sboxb5()
    ensures Sbox(0xb5) == 0xfd
  {
    SboxAt(0xb5);
  }

  lemma Sboxb7()
    ensures Sbox(0xb7) == 0x2f
  {
    SboxAt(0xb7);
  }

  lemma Sboxb8()
    ensures Sbox(0xb8) == 0x03
  {
    SboxAt(0xb8);
  }

  lemma Sboxb9()
    ensures Sbox(0xb9) == 0xff
  {
    SboxAt(0xb9);
  }

  lemma Sboxbc()
    ensures Sbox(0xbc) == 0x6d
  {
    SboxAt(0xbc);
  }

  lemma Sboxbd()
    ensures Sbox(0xbd) == 0x6c
  {
    SboxAt(0xbd);
  }

  lemma Sboxbe()
    ensures Sbox(0xbe) == 0x5b
  {
    SboxAt(0xbe);
  }

  lemma Sboxc0()
    ensures Sbox(0xc0) == 0x8d
  {
    SboxAt(0xc0);
  }

  lemma Sboxc2()
    ensures Sbox(0xc2) == 0xaf
  {
    SboxAt(0xc2);
  }

  lemma Sboxc3()
    ensures Sbox(0xc3) == 0x92
  {
    SboxAt(0xc3);
  }

  lemma Sboxc4()
    ensures Sbox(0xc4) == 0xbb
  {
    SboxAt(0xc4);
  }

  lemma Sboxc5()
    ensures Sbox(0xc5) == 0xdd
  {
    SboxAt(0xc5);
  }

  lemma Sboxc8()
    ensures Sbox(0xc8) == 0x11
  {
    SboxAt(0xc8);
  }

  lemma Sboxc9()
    ensures Sbox(0xc9) == 0xd9
  {
    SboxAt(0xc9);
  }

  lemma Sboxca()
    ensures Sbox(0xca) == 0x5c
  {
    SboxAt(0xca);
  }

  lemma Sboxcb()
    ensures Sbox(0xcb) == 0x41
  {
    SboxAt(0xcb);
  }

  lemma Sboxcc()
    ensures Sbox(0xcc) == 0x1f
  {
    SboxAt(0xcc);
  }

  lemma Sboxce()
    ensures Sbox(0xce) == 0x5a
  {
    SboxAt(0xce);
  }

  lemma Sboxd1()
    ensures Sbox(0xd1) == 0xc1
  {
    SboxAt(0xd1);
  }

  lemma Sboxd2()
    ensures Sbox(0xd2) == 0x31
  {
    SboxAt(0xd2);
  }

  lemma Sboxd4()
    ensures Sbox(0xd4) == 0xa5
  {
    SboxAt(0xd4);
  }

  lemma Sboxd6()
    ensures Sbox(0xd6) == 0x7b
  {
    SboxAt(0xd6);
  }

  lemma Sboxd7()
    ensures Sbox(0xd7) == 0xbd
  {
    SboxAt(0xd7);
  }

  lemma Sboxda()
    ensures Sbox(0xda) == 0xd0
  {
    SboxAt(0xda);
  }

  lemma Sboxdb()
    ensures Sbox(0xdb) == 0x12
  {
    SboxAt(0xdb);
  }

  lemma Sboxdc()
    ensures Sbox(0xdc) == 0xb8
  {
    SboxAt(0xdc);
  }

  lemma Sboxde()
    ensures Sbox(0xde) == 0xb4
  {
    SboxAt(0xde);
  }

  lemma Sboxdf()
    ensures Sbox(0xdf) == 0xb0
  {
    SboxAt(0xdf);
  }

  lemma Sboxe0()
    ensures Sbox(0xe0) == 0x89
  {
    SboxAt(0xe0);
  }

  lemma Sboxe1()
    ensures Sbox(0xe1) == 0x69
  {
    SboxAt(0xe1);
  }

  lemma Sboxe4()
    ensures Sbox(0xe4) == 0x0c
  {
    SboxAt(0xe4);
  }

  lemma Sboxe5()
    ensures Sbox(0xe5) == 0x96
  {
    SboxAt(0xe5);
  }

  lemma Sboxe6()
    ensures Sbox(0xe6) == 0x77
  {
    SboxAt(0xe6);
  }

  lemma Sboxe8()
    ensures Sbox(0xe8) == 0x65
  {
    SboxAt(0xe8);
  }

  lemma Sboxeb()
    ensures Sbox(0xeb) == 0x09
  {
    SboxAt(0xeb);
  }

  lemma Sboxec()
    ensures Sbox(0xec) == 0xc5
  {
    SboxAt(0xec);
  }

  lemma Sboxed()
    ensures Sbox(0xed) == 0x6e
  {
    SboxAt(0xed);
  }

  lemma Sboxee()
    ensures Sbox(0xee) == 0xc6
  {
    SboxAt(0xee);
  }

  lemma Sboxf0()
    ensures Sbox(0xf0) == 0x18
  {
    SboxAt(0xf0);
  }

  lemma Sboxf1()
    ensures Sbox(0xf1) == 0xf0
  {
    SboxAt(0xf1);
  }

  lemma Sboxf2()
    ensures Sbox(0xf2) == 0x7d
  {
    SboxAt(0xf2);
  }

  lemma Sboxf3()
    ensures Sbox(0xf3) == 0xec
  {
    SboxAt(0xf3);
  }

  lemma Sboxf6()
    ensures Sbox(0xf6) == 0x4d
  {
    SboxAt(0xf6);
  }

  lemma Sboxf8()
    ensures Sbox(0xf8) == 0x79
  {
    SboxAt(0xf8);
  }

  lemma Sboxfa()
    ensures Sbox(0xfa) == 0x5f
  {
    SboxAt(0xfa);
  }

  lemma Sboxfb()
    ensures Sbox(0xfb) == 0x3e
  {
    SboxAt(0xfb);
  }

  lemma Sboxff()
    ensures Sbox(0xff) == 0x48
  {
    SboxAt(0xff);
  }

  /** Key-schedule step 0: K(4) from K(0), ..., K(3) and CK(0). */
  lemma KeyRound0()
    ensures Round(Quad(0xa292ffa1, 0xdf01febf, 0x99a12b0f, 0xc42410cc), KeySub, CK[0]) == Quad(0xdf01febf, 0x99a12b0f, 0xc42410cc, 0xf12186f9)
  {
    Sbox82();
    Sbox83();
    Sboxcb();
    Sbox69();
  }

  /** Key-schedule step 1: K(5) from K(1), ..., K(4) and CK(1). */
  lemma KeyRound1()
    ensures Round(Quad(0xdf01febf, 0x99a12b0f, 0xc42410cc, 0xf12186f9), KeySub, CK[1]) == Quad(0x99a12b0f, 0xc42410cc, 0xf12186f9, 0x41662b61)
  {
    Sboxb0();
    Sbox87();
    Sbox97();
    Sbox0b();
  }

  /** Key-schedule step 2: K(6) from K(2), ..., K(5) and CK(2). */
  lemma KeyRound2()
    ensures Round(Quad(0x99a12b0f, 0xc42410cc, 0xf12186f9, 0x41662b61), KeySub, CK[2]) == Quad(0xc42410cc, 0xf12186f9, 0x41662b61, 0x5a6ab19a)
  {
    Sbox4c();
    Sbox5c();
    Sboxfb();
    Sbox19();
  }

  /** Key-schedule step 3: K(7) from K(3), ..., K(6) and CK(3). */
  lemma KeyRound3()
    ensures Round(Quad(0xc42410cc, 0xf12186f9, 0x41662b61, 0x5a6ab19a), KeySub, CK[3]) == Quad(0xf12186f9, 0x41662b61, 0x5a6ab19a, 0x7ba92077)
  {
    Sboxbe();
    Sbox76();
    Sbox7e();
    Sbox6b();
  }

  /** Key-schedule step 4: K(8) from K(4), ..., K(7) and CK(4). */
  lemma KeyRound4()
    ensures Round(Quad(0xf12186f9, 0x41662b61, 0x5a6ab19a, 0x7ba92077), KeySub, CK[4]) == Quad(0x41662b61, 0x5a6ab19a, 0x7ba92077, 0x367360f4)
  {
    Sbox10();
    Sboxd2();
    Sboxc4();
    Sbox09();
  }

  /** Key-schedule step 5: K(9) from K(5), ..., K(8) and CK(5). */
  lemma KeyRound5()
    ensures Round(Quad(0x41662b61, 0x5a6ab19a, 0x7ba92077, 0x367360f4), KeySub, CK[5]) == Quad(0x5a6ab19a, 0x7ba92077, 0x367360f4, 0x776a0c61)
  {
    Sbox9b();
    Sbox23();
    Sbox6b();
    Sboxb8();
  }

  /** Key-schedule step 6: K(10) from K(6), ..., K(9) and CK(6). */
  lemma KeyRound6()
    ensures Round(Quad(0x5a6ab19a, 0x7ba92077, 0x367360f4, 0x776a0c61), KeySub, CK[6]) == Quad(0x7ba92077, 0x367360f4, 0x776a0c61, 0xb6bb89b3)
  {
    Sbox92();
    Sbox1f();
    Sboxfa();
    Sbox5f();
  }

  /** Key-schedule step 7: K(11) from K(7), ..., K(10) and CK(7). */
  lemma KeyRound7()
    ensures Round(Quad(0x7ba92077, 0x367360f4, 0x776a0c61, 0xb6bb89b3), KeySub, CK[7]) == Quad(0x367360f4, 0x776a0c61, 0xb6bb89b3, 0x24763151)
  {
    Sbox33();
    Sbox69();
    Sbox37();
    Sboxff();
  }

  /** Key-schedule step 8: K(12) from K(8), ..., K(11) and CK(8). */
  lemma KeyRound8()
    ensures Round(Quad(0x367360f4, 0x776a0c61, 0xb6bb89b3, 0x24763151), KeySub, CK[8]) == Quad(0x776a0c61, 0xb6bb89b3, 0x24763151, 0xa520307c)
  {
    Sbox05();
    Sbox40();
    Sbox5a();
    Sbox76();
  }

  /** Key-schedule step 9: K(13) from K(9), ..., K(12) and CK(9). */
  lemma KeyRound9()
    ensures Round(Quad(0x776a0c61, 0xb6bb89b3, 0x24763151, 0xa520307c), KeySub, CK[9]) == Quad(0xb6bb89b3, 0x24763151, 0xa520307c, 0xb7584dbd)
  {
    Sboxcb();
    Sboxee();
    Sbox82();
    Sbox8f();
  }

  /** Key-schedule step 10: K(14) from K(10), ..., K(13) and CK(10). */
  lemma KeyRound10()
    ensures Round(Quad(0xb6bb89b3, 0x24763151, 0xa520307c, 0xb7584dbd), KeySub, CK[10]) == Quad(0x24763151, 0xa520307c, 0xb7584dbd, 0xc30753ed)
  {
    Sbox2e();
    Sbox11();
    Sbox6a();
    Sboxbd();
  }

  /** Key-schedule step 11: K(15) from K(11), ..., K(14) and CK(11). */
  lemma KeyRound11()
    ensures Round(Quad(0x24763151, 0xa520307c, 0xb7584dbd, 0xc30753ed), KeySub, CK[11]) == Quad(0xa520307c, 0xb7584dbd, 0xc30753ed, 0x7ee55b57)
  {
    Sboxe5();
    Sbox44();
    Sbox6c();
    Sbox65();
  }

  /** Key-schedule step 12: K(16) from K(12), ..., K(15) and CK(12). */
  lemma KeyRound12()
    ensures Round(Quad(0xa520307c, 0xb7584dbd, 0xc30753ed, 0x7ee55b57), KeySub, CK[12]) == Quad(0xb7584dbd, 0xc30753ed, 0x7ee55b57, 0x6988608c)
  {
    Sbox5a();
    Sboxed();
    Sbox1b();
    Sbox62();
  }

  /** Key-schedule step 13: K(17) from K(13), ..., K(16) and CK(13). */
  lemma KeyRound13()
    ensures Round(Quad(0xb7584dbd, 0xc30753ed, 0x7ee55b57, 0x6988608c), KeySub, CK[13]) == Quad(0xc30753ed, 0x7ee55b57, 0x6988608c, 0x30d895b7)
  {
    Sboxb8();
    Sbox19();
    Sbox12();
    Sboxb7();
  }

  /** Key-schedule step 14: K(18) from K(14), ..., K(17) and CK(14). */
  lemma KeyRound14()
    ensures Round(Quad(0xc30753ed, 0x7ee55b57, 0x6988608c, 0x30d895b7), KeySub, CK[14]) == Quad(0x7ee55b57, 0x6988608c, 0x30d895b7, 0x44ba14af)
  {
    Sboxaf();
    Sbox3a();
    Sbox38();
    Sboxf1();
  }

  /** Key-schedule step 15: K(19) from K(15), ..., K(18) and CK(15). */
  lemma KeyRound15()
    ensures Round(Quad(0x7ee55b57, 0x6988608c, 0x30d895b7, 0x44ba14af), KeySub, CK[15]) == Quad(0x6988608c, 0x30d895b7, 0x44ba14af, 0x104495a1)
  {
    Sboxb9();
    Sbox41();
    Sbox53();
    Sbox2d();
  }

  /** Key-schedule step 16: K(20) from K(16), ..., K(19) and CK(16). */
  lemma KeyRound16()
    ensures Round(Quad(0x6988608c, 0x30d895b7, 0x44ba14af, 0x104495a1), KeySub, CK[16]) == Quad(0x30d895b7, 0x44ba14af, 0x104495a1, 0xd120b428)
  {
    Sboxa4();
    Sboxe1();
    Sboxda();
    Sbox6c();
  }

  /** Key-schedule step 17: K(21) from K(17), ..., K(20) and CK(17). */
  lemma KeyRound17()
    ensures Round(Quad(0x30d895b7, 0x44ba14af, 0x104495a1, 0xd120b428), KeySub, CK[17]) == Quad(0x44ba14af, 0x104495a1, 0xd120b428, 0x73b55fa3)
  {
    Sbox59();
    Sbox3d();
    Sboxdf();
    Sboxd7();
  }

  /** Key-schedule step 18: K(22) from K(18), ..., K(21) and CK(18). */
  lemma KeyRound18()
    ensures Round(Quad(0x44ba14af, 0x104495a1, 0xd120b428, 0x73b55fa3), KeySub, CK[18]) == Quad(0x104495a1, 0xd120b428, 0x73b55fa3, 0xcc874966)
  {
    Sbox4a();
    Sbox2e();
    Sbox78();
    Sbox27();
  }

  /** Key-schedule step 19: K(23) from K(19), ..., K(22) and CK(19). */
  lemma KeyRound19()
    ensures Round(Quad(0x104495a1, 0xd120b428, 0x73b55fa3, 0xcc874966), KeySub, CK[19]) == Quad(0xd120b428, 0x73b55fa3, 0xcc874966, 0x92244439)
  {
    Sbox7a();
    Sbox09();
    Sbox80();
    Sboxc4();
  }

  /** Key-schedule step 20: K(24) from K(20), ..., K(23) and CK(20). */
  lemma KeyRound20()
    ensures Round(Quad(0xd120b428, 0x73b55fa3, 0xcc874966, 0x92244439), KeySub, CK[20]) == Quad(0x73b55fa3, 0xcc874966, 0x92244439, 0xe89e641f)
  {
    Sbox1d();
    Sbox21();
    Sbox6c();
    Sboxb9();
  }

  /** Key-schedule step 21: K(25) from K(21), ..., K(24) and CK(21). */
  lemma KeyRound21()
    ensures Round(Quad(0x73b55fa3, 0xcc874966, 0x92244439, 0xe89e641f), KeySub, CK[21]) == Quad(0xcc874966, 0x92244439, 0xe89e641f, 0x98ca015a)
  {
    Sboxfa();
    Sbox6e();
    Sbox33();
    Sbox21();
  }

  /** Key-schedule step 22: K(26) from K(22), ..., K(25) and CK(22). */
  lemma KeyRound22()
    ensures Round(Quad(0xcc874966, 0x92244439, 0xe89e641f, 0x98ca015a), KeySub, CK[22]) == Quad(0x92244439, 0xe89e641f, 0x98ca015a, 0xc7159060)
  {
    Sbox8a();
    Sbox1f();
    Sbox57();
    Sbox01();
  }

  /** Key-schedule step 23: K(27) from K(23), ..., K(26) and CK(23). */
  lemma KeyRound23()
    ensures Round(Quad(0x92244439, 0xe89e641f, 0x98ca015a, 0xc7159060), KeySub, CK[23]) == Quad(0xe89e641f, 0x98ca015a, 0xc7159060, 0x99e1fd2e)
  {
    Sbox33();
    Sboxca();
    Sbox67();
    Sboxbc();
  }

  /** Key-schedule step 24: K(28) from K(24), ..., K(27) and CK(24). */
  lemma KeyRound24()
    ensures Round(Quad(0xe89e641f, 0x98ca015a, 0xc7159060, 0x99e1fd2e), KeySub, CK[24]) == Quad(0x98ca015a, 0xc7159060, 0x99e1fd2e, 0xb79bd80c)
  {
    Sbox66();
    Sbox99();
    Sboxc2();
    Sboxa1();
  }

  /** Key-schedule step 25: K(29) from K(25), ..., K(28) and CK(25). */
  lemma KeyRound25()
    ensures Round(Quad(0x98ca015a, 0xc7159060, 0x99e1fd2e, 0xb79bd80c), KeySub, CK[25]) == Quad(0xc7159060, 0x99e1fd2e, 0xb79bd80c, 0x1d2115b0)
  {
    Sbox55();
    Sboxac();
    Sbox7f();
    Sbox93();
  }

  /** Key-schedule step 26: K(30) from K(26), ..., K(29) and CK(26). */
  lemma KeyRound26()
    ensures Round(Quad(0xc7159060, 0x99e1fd2e, 0xb79bd80c, 0x1d2115b0), KeySub, CK[26]) == Quad(0x99e1fd2e, 0xb79bd80c, 0x1d2115b0, 0x0e228aeb)
  {
    Sboxeb();
    Sbox84();
    Sboxd6();
    Sbox7f();
  }

  /** Key-schedule step 27: K(31) from K(27), ..., K(30) and CK(27). */
  lemma KeyRound27()
    ensures Round(Quad(0x99e1fd2e, 0xb79bd80c, 0x1d2115b0, 0x0e228aeb), KeySub, CK[27]) == Quad(0xb79bd80c, 0x1d2115b0, 0x0e228aeb, 0xf1780c81)
  {
    Sbox50();
    Sbox63();
    Sbox45();
    Sbox5e();
  }

  /** Key-schedule step 28: K(32) from K(28), ..., K(31) and CK(28). */
  lemma KeyRound28()
    ensures Round(Quad(0xb79bd80c, 0x1d2115b0, 0x0e228aeb, 0xf1780c81), KeySub, CK[28]) == Quad(0x1d2115b0, 0x0e228aeb, 0xf1780c81, 0x428d3654)
  {
    Sboxf2();
    Sbox6c();
    Sbox8d();
    Sboxff();
  }

  /** Key-schedule step 29: K(33) from K(29), ..., K(32) and CK(29). */
  lemma KeyRound29()
    ensures Round(Quad(0x1d2115b0, 0x0e228aeb, 0xf1780c81, 0x428d3654), KeySub, CK[29]) == Quad(0x0e228aeb, 0xf1780c81, 0x428d3654, 0x62293496)
  {
    Sbox91();
    Sboxe4();
    Sbox8a();
    Sbox7f();
  }

  /** Key-schedule step 30: K(34) from K(30), ..., K(33) and CK(30). */
  lemma KeyRound30()
    ensures Round(Quad(0x0e228aeb, 0xf1780c81, 0x428d3654, 0x62293496), KeySub, CK[30]) == Quad(0xf1780c81, 0x428d3654, 0x62293496, 0x01cf72e5)
  {
    Sbox99();
    Sbox93();
    Sbox58();
    Sbox1e();
  }

  /** Key-schedule step 31: K(35) from K(31), ..., K(34) and CK(31). */
  lemma KeyRound31()
    ensures Round(Quad(0xf1780c81, 0x428d3654, 0x62293496, 0x01cf72e5), KeySub, CK[31]) == Quad(0x428d3654, 0x62293496, 0x01cf72e5, 0x9124a012)
  {
    Sbox45();
    Sbox00();
    Sbox02();
    Sbox5e();
  }

  /** Round 0 of the block transformation: X(4) from X(0), ..., X(3) and rk(0). */
  lemma BlockRound0()
    ensures Round(Quad(0x01234567, 0x89abcdef, 0xfedcba98, 0x76543210), TTrans, ROUND_KEYS[0]) == Quad(0x89abcdef, 0xfedcba98, 0x76543210, 0x27fad345)
  {
    Sboxf0();
    Sbox02();
    Sboxc3();
    Sbox9e();
  }

  /** Round 1 of the block transformation: X(5) from X(1), ..., X(4) and rk(1). */
  lemma BlockRound1()
    ensures Round(Quad(0x89abcdef, 0xfedcba98, 0x76543210, 0x27fad345), TTrans, ROUND_KEYS[1]) == Quad(0xfedcba98, 0x76543210, 0x27fad345, 0xa18b4cb2)
  {
    Sboxee();
    Sbox14();
    Sbox70();
    Sboxac();
  }

  /** Round 2 of the block transformation: X(6) from X(2), ..., X(5) and rk(2). */
  lemma BlockRound2()
    ensures Round(Quad(0xfedcba98, 0x76543210, 0x27fad345, 0xa18b4cb2), TTrans, ROUND_KEYS[2]) == Quad(0x76543210, 0x27fad345, 0xa18b4cb2, 0x11c1e22a)
  {
    Sboxaa();
    Sbox4f();
    Sbox1c();
    Sbox7d();
  }

  /** Round 3 of the block transformation: X(7) from X(3), ..., X(6) and rk(3). */
  lemma BlockRound3()
    ensures Round(Quad(0x76543210, 0x27fad345, 0xa18b4cb2, 0x11c1e22a), TTrans, ROUND_KEYS[3]) == Quad(0x27fad345, 0xa18b4cb2, 0x11c1e22a, 0xcc13e2ee)
  {
    Sboxec();
    Sbox19();
    Sbox5d();
    Sboxaa();
  }

  /** Round 4 of the block transformation: X(8) from X(4), ..., X(7) and rk(4). */
  lemma BlockRound4()
    ensures Round(Quad(0x27fad345, 0xa18b4cb2, 0x11c1e22a, 0xcc13e2ee), TTrans, ROUND_KEYS[4]) == Quad(0xa18b4cb2, 0x11c1e22a, 0xcc13e2ee, 0xf87c5bd5)
  {
    Sbox4a();
    Sbox2a();
    Sbox2c();
    Sbox82();
  }

  /** Round 5 of the block transformation: X(9) from X(5), ..., X(8) and rk(5). */
  lemma BlockRound5()
    ensures Round(Quad(0xa18b4cb2, 0x11c1e22a, 0xcc13e2ee, 0xf87c5bd5), TTrans, ROUND_KEYS[5]) == Quad(0x11c1e22a, 0xcc13e2ee, 0xf87c5bd5, 0x33220757)
  {
    Sbox52();
    Sboxc4();
    Sbox57();
    Sbox70();
  }

  /** Round 6 of the block transformation: X(10) from X(6), ..., X(9) and rk(6). */
  lemma BlockRound6()
    ensures Round(Quad(0x11c1e22a, 0xcc13e2ee, 0xf87c5bd5, 0x33220757), TTrans, ROUND_KEYS[6]) == Quad(0xcc13e2ee, 0xf87c5bd5, 0x33220757, 0x77f4c297)
  {
    Sboxb1();
    Sboxf6();
    Sbox37();
    Sboxdf();
  }

  /** Round 7 of the block transformation: X(11) from X(7), ..., X(10) and rk(7). */
  lemma BlockRound7()
    ensures Round(Quad(0xcc13e2ee, 0xf87c5bd5, 0x33220757, 0x77f4c297), TTrans, ROUND_KEYS[7]) == Quad(0xf87c5bd5, 0x33220757, 0x77f4c297, 0x7a96f2eb)
  {
    Sbox98();
    Sboxdc();
    Sboxaf();
    Sbox44();
  }

  /** Round 8 of the block transformation: X(12) from X(8), ..., X(11) and rk(8). */
  lemma BlockRound8()
    ensures Round(Quad(0xf87c5bd5, 0x33220757, 0x77f4c297, 0x7a96f2eb), TTrans, ROUND_KEYS[8]) == Quad(0x33220757, 0x77f4c297, 0x7a96f2eb, 0x27dac07f)
  {
    Sbox9b();
    Sbox60();
    Sbox07();
    Sbox57();
  }

  /** Round 9 of the block transformation: X(13) from X(9), ..., X(12) and rk(9). */
  lemma BlockRound9()
    ensures Round(Quad(0x33220757, 0x77f4c297, 0x7a96f2eb, 0x27dac07f), TTrans, ROUND_KEYS[9]) == Quad(0x77f4c297, 0x7a96f2eb, 0x27dac07f, 0x42dd0f19)
  {
    Sbox9d();
    Sboxe0();
    Sboxbd();
    Sboxbe();
  }

  /** Round 10 of the block transformation: X(14) from X(10), ..., X(13) and rk(10). */
  lemma BlockRound10()
    ensures Round(Quad(0x77f4c297, 0x7a96f2eb, 0x27dac07f, 0x42dd0f19), TTrans, ROUND_KEYS[10]) == Quad(0x7a96f2eb, 0x27dac07f, 0x42dd0f19, 0xb8a5da02)
  {
    Sboxdc();
    Sbox96();
    Sbox6e();
    Sbox60();
  }

  /** Round 11 of the block transformation: X(15) from X(11), ..., X(14) and rk(11). */
  lemma BlockRound11()
    ensures Round(Quad(0x7a96f2eb, 0x27dac07f, 0x42dd0f19, 0xb8a5da02), TTrans, ROUND_KEYS[11]) == Quad(0x27dac07f, 0x42dd0f19, 0xb8a5da02, 0x907127fa)
  {
    Sboxa3();
    Sbox47();
    Sbox4e();
    Sbox33();
  }

  /** Round 12 of the block transformation: X(16) from X(12), ..., X(15) and rk(12). */
  lemma BlockRound12()
    ensures Round(Quad(0x27dac07f, 0x42dd0f19, 0xb8a5da02, 0x907127fa), TTrans, ROUND_KEYS[12]) == Quad(0x42dd0f19, 0xb8a5da02, 0x907127fa, 0x8b952b83)
  {
    Sbox03();
    Sbox81();
    Sbox92();
    Sbox6d();
  }

  /** Round 13 of the block transformation: X(17) from X(13), ..., X(16) and rk(13). */
  lemma BlockRound13()
    ensures Round(Quad(0x42dd0f19, 0xb8a5da02, 0x907127fa, 0x8b952b83), TTrans, ROUND_KEYS[13]) == Quad(0xb8a5da02, 0x907127fa, 0x8b952b83, 0xd42b7c59)
  {
    Sbox93();
    Sbox99();
    Sbox43();
    Sboxcc();
  }

  /** Round 14 of the block transformation: X(18) from X(14), ..., X(17) and rk(14). */
  lemma BlockRound14()
    ensures Round(Quad(0xb8a5da02, 0x907127fa, 0x8b952b83, 0xd42b7c59), TTrans, ROUND_KEYS[14]) == Quad(0x907127fa, 0x8b952b83, 0xd42b7c59, 0x2ffc5831)
  {
    Sbox8b();
    Sbox75();
    Sbox64();
    Sbox8f();
  }

  /** Round 15 of the block transformation: X(19) from X(15), ..., X(18) and rk(15). */
  lemma BlockRound15()
    ensures Round(Quad(0x907127fa, 0x8b952b83, 0xd42b7c59, 0x2ffc5831), TTrans, ROUND_KEYS[15]) == Quad(0x8b952b83, 0xd42b7c59, 0x2ffc5831, 0xf69e6888)
  {
    Sbox60();
    Sbox06();
    Sbox9a();
    Sbox4a();
  }

  /** Round 16 of the block transformation: X(20) from X(16), ..., X(19) and rk(16). */
  lemma BlockRound16()
    ensures Round(Quad(0x8b952b83, 0xd42b7c59, 0x2ffc5831, 0xf69e6888), TTrans, ROUND_KEYS[16]) == Quad(0xd42b7c59, 0x2ffc5831, 0xf69e6888, 0xaf2432c4)
  {
    Sboxdc();
    Sbox69();
    Sboxf8();
    Sboxc8();
  }

  /** Round 17 of the block transformation: X(21) from X(17), ..., X(20) and rk(17). */
  lemma BlockRound17()
    ensures Round(Quad(0xd42b7c59, 0x2ffc5831, 0xf69e6888, 0xaf2432c4), TTrans, ROUND_KEYS[17]) == Quad(0x2ffc5831, 0xf69e6888, 0xaf2432c4, 0xed1ec85e)
  {
    Sbox05();
    Sboxf3();
    Sbox5d();
    Sboxde();
  }

  /** Round 18 of the block transformation: X(22) from X(18), ..., X(21) and rk(18). */
  lemma BlockRound18()
    ensures Round(Quad(0x2ffc5831, 0xf69e6888, 0xaf2432c4, 0xed1ec85e), TTrans, ROUND_KEYS[18]) == Quad(0xf69e6888, 0xaf2432c4, 0xed1ec85e, 0x55a3ba22)
  {
    Sbox78();
    Sbox23();
    Sboxdb();
    Sbox74();
  }

  /** Round 19 of the block transformation: X(23) from X(19), ..., X(22) and rk(19). */
  lemma BlockRound19()
    ensures Round(Quad(0xf69e6888, 0xaf2432c4, 0xed1ec85e, 0x55a3ba22), TTrans, ROUND_KEYS[19]) == Quad(0xaf2432c4, 0xed1ec85e, 0x55a3ba22, 0x124b18aa)
  {
    Sbox85();
    Sboxbd();
    Sbox04();
    Sbox81();
  }

  /** Round 20 of the block transformation: X(24) from X(20), ..., X(23) and rk(20). */
  lemma BlockRound20()
    ensures Round(Quad(0xaf2432c4, 0xed1ec85e, 0x55a3ba22, 0x124b18aa), TTrans, ROUND_KEYS[20]) == Quad(0xed1ec85e, 0x55a3ba22, 0x124b18aa, 0x6ae7725f)
  {
    Sbox42();
    Sbox68();
    Sbox0e();
    Sboxc9();
  }

  /** Round 21 of the block transformation: X(25) from X(21), ..., X(24) and rk(21). */
  lemma BlockRound21()
    ensures Round(Quad(0xed1ec85e, 0x55a3ba22, 0x124b18aa, 0x6ae7725f), TTrans, ROUND_KEYS[21]) == Quad(0x55a3ba22, 0x124b18aa, 0x6ae7725f, 0xf4cba1f9)
  {
    Sboxb5();
    Sboxc5();
    Sboxd1();
    Sbox8d();
  }

  /** Round 22 of the block transformation: X(26) from X(22), ..., X(25) and rk(22). */
  lemma BlockRound22()
    ensures Round(Quad(0x55a3ba22, 0x124b18aa, 0x6ae7725f, 0xf4cba1f9), TTrans, ROUND_KEYS[22]) == Quad(0x124b18aa, 0x6ae7725f, 0xf4cba1f9, 0x1dcdfa10)
  {
    Sbox4b();
    Sbox72();
    Sbox5b();
    Sbox6c();
  }

  /** Round 23 of the block transformation: X(27) from X(23), ..., X(26) and rk(23). */
  lemma BlockRound23()
    ensures Round(Quad(0x124b18aa, 0x6ae7725f, 0xf4cba1f9, 0x1dcdfa10), TTrans, ROUND_KEYS[23]) == Quad(0x6ae7725f, 0xf4cba1f9, 0x1dcdfa10, 0x2ff60603)
  {
    Sbox1a();
    Sbox00();
    Sboxd4();
    Sbox98();
  }

  /** Round 24 of the block transformation: X(28) from X(24), ..., X(27) and rk(24). */
  lemma BlockRound24()
    ensures Round(Quad(0x6ae7725f, 0xf4cba1f9, 0x1dcdfa10, 0x2ff60603), TTrans, ROUND_KEYS[24]) == Quad(0xf4cba1f9, 0x1dcdfa10, 0x2ff60603, 0xeff24fdc)
  {
    Sbox71();
    Sbox6b();
    Sbox85();
    Sboxe6();
  }

  /** Round 25 of the block transformation: X(29) from X(25), ..., X(28) and rk(25). */
  lemma BlockRound25()
    ensures Round(Quad(0xf4cba1f9, 0x1dcdfa10, 0x2ff60603, 0xeff24fdc), TTrans, ROUND_KEYS[25]) == Quad(0x1dcdfa10, 0x2ff60603, 0xeff24fdc, 0x6fe46b75)
  {
    Sboxc0();
    Sboxe8();
    Sboxa6();
    Sbox7f();
  }

  /** Round 26 of the block transformation: X(30) from X(26), ..., X(29) and rk(26). */
  lemma BlockRound26()
    ensures Round(Quad(0x1dcdfa10, 0x2ff60603, 0xeff24fdc, 0x6fe46b75), TTrans, ROUND_KEYS[26]) == Quad(0x2ff60603, 0xeff24fdc, 0x6fe46b75, 0x893450ad)
  {
    Sboxa1();
    Sboxc2();
    Sboxa8();
    Sbox41();
  }

  /** Round 27 of the block transformation: X(31) from X(27), ..., X(30) and rk(27). */
  lemma BlockRound27()
    ensures Round(Quad(0x2ff60603, 0xeff24fdc, 0x6fe46b75, 0x893450ad), TTrans, ROUND_KEYS[27]) == Quad(0xeff24fdc, 0x6fe46b75, 0x893450ad, 0x7b938f4c)
  {
    Sboxf8();
    Sbox5a();
    Sbox78();
    Sbox85();
  }

  /** Round 28 of the block transformation: X(32) from X(28), ..., X(31) and rk(28). */
  lemma BlockRound28()
    ensures Round(Quad(0xeff24fdc, 0x6fe46b75, 0x893450ad, 0x7b938f4c), TTrans, ROUND_KEYS[28]) == Quad(0x6fe46b75, 0x893450ad, 0x7b938f4c, 0x536e4246)
  {
    Sboxdf();
    Sboxce();
    Sbox82();
    Sboxc0();
  }

  /** Round 29 of the block transformation: X(33) from X(29), ..., X(32) and rk(29). */
  lemma BlockRound29()
    ensures Round(Quad(0x6fe46b75, 0x893450ad, 0x7b938f4c, 0x536e4246), TTrans, ROUND_KEYS[29]) == Quad(0x893450ad, 0x7b938f4c, 0x536e4246, 0x86b3e94f)
  {
    Sboxc3();
    Sboxe0();
    Sboxa9();
    Sbox31();
  }

  /** Round 30 of the block transformation: X(34) from X(30), ..., X(33) and rk(30). */
  lemma BlockRound30()
    ensures Round(Quad(0x893450ad, 0x7b938f4c, 0x536e4246, 0x86b3e94f), TTrans, ROUND_KEYS[30]) == Quad(0x7b938f4c, 0x536e4246, 0x86b3e94f, 0xd206965e)
  {
    Sboxaf();
    Sbox81();
    Sbox56();
    Sboxa0();
  }

  /** Round 31 of the block transformation: X(35) from X(31), ..., X(34) and rk(31). */
  lemma BlockRound31()
    ensures Round(Quad(0x7b938f4c, 0x536e4246, 0x86b3e94f, 0xd206965e), TTrans, ROUND_KEYS[31]) == Quad(0x536e4246, 0x86b3e94f, 0xd206965e, 0x681edf34)
  {
    Sbox96();
    Sboxff();
    Sbox9d();
    Sbox45();
  }

  /** The key schedule after 1 step. */
  lemma KeyWindow1()
    ensures Iterate(KEY_START, KeySub, CK, 1) == Quad(0xdf01febf, 0x99a12b0f, 0xc42410cc, 0xf12186f9)
  {
    KeyRound0();
  }

  /** The key schedule after 2 steps. */
  lemma KeyWindow2()
    ensures Iterate(KEY_START, KeySub, CK, 2) == Quad(0x99a12b0f, 0xc42410cc, 0xf12186f9, 0x41662b61)
  {
    KeyWindow1();
    KeyRound1();
  }

  /** The key schedule after 3 steps. */
  lemma KeyWindow3()
    ensures Iterate(KEY_START, KeySub, CK, 3) == Quad(0xc42410cc, 0xf12186f9, 0x41662b61, 0x5a6ab19a)
  {
    KeyWindow2();
    KeyRound2();
  }

  /** The key schedule after 4 steps. */
  lemma KeyWindow4()
    ensures Iterate(KEY_START, KeySub, CK, 4) == Quad(0xf12186f9, 0x41662b61, 0x5a6ab19a, 0x7ba92077)
  {
    KeyWindow3();
    KeyRound3();
  }

  /** The key schedule after 5 steps. */
  lemma KeyWindow5()
    ensures Iterate(KEY_START, KeySub, CK, 5) == Quad(0x41662b61, 0x5a6ab19a, 0x7ba92077, 0x367360f4)
  {
    KeyWindow4();
    KeyRound4();
  }

  /** The key schedule after 6 steps. */
  lemma KeyWindow6()
    ensures Iterate(KEY_START, KeySub, CK, 6) == Quad(0x5a6ab19a, 0x7ba92077, 0x367360f4, 0x776a0c61)
  {
    KeyWindow5();
    KeyRound5();
  }

  /** The key schedule after 7 steps. */
  lemma KeyWindow7()
    ensures Iterate(KEY_START, KeySub, CK, 7) == Quad(0x7ba92077, 0x367360f4, 0x776a0c61, 0xb6bb89b3)
  {
    KeyWindow6();
    KeyRound6();
  }

  /** The key schedule after 8 steps. */
  lemma KeyWindow8()
    ensures Iterate(KEY_START, KeySub, CK, 8) == Quad(0x367360f4, 0x776a0c61, 0xb6bb89b3, 0x24763151)
  {
    KeyWindow7();
    KeyRound7();
  }

  /** The key schedule after 9 steps. */
  lemma KeyWindow9()
    ensures Iterate(KEY_START, KeySub, CK, 9) == Quad(0x776a0c61, 0xb6bb89b3, 0x24763151, 0xa520307c)
  {
    KeyWindow8();
    KeyRound8();
  }

  /** The key schedule after 10 steps. */
  lemma KeyWindow10()
    ensures Iterate(KEY_START, KeySub, CK, 10) == Quad(0xb6bb89b3, 0x24763151, 0xa520307c, 0xb7584dbd)
  {
    KeyWindow9();
    KeyRound9();
  }

  /** The key schedule after 11 steps. */
  lemma KeyWindow11()
    ensures Iterate(KEY_START, KeySub, CK, 11) == Quad(0x24763151, 0xa520307c, 0xb7584dbd, 0xc30753ed)
  {
    KeyWindow10();
    KeyRound10();
  }

  /** The key schedule after 12 steps. */
  lemma KeyWindow12()
    ensures Iterate(KEY_START, KeySub, CK, 12) == Quad(0xa520307c, 0xb7584dbd, 0xc30753ed, 0x7ee55b57)
  {
    KeyWindow11();
    KeyRound11();
  }

  /** The key schedule after 13 steps. */
  lemma KeyWindow13()
    ensures Iterate(KEY_START, KeySub, CK, 13) == Quad(0xb7584dbd, 0xc30753ed, 0x7ee55b57, 0x6988608c)
  {
    KeyWindow12();
    KeyRound12();
  }

  /** The key schedule after 14 steps. */
  lemma KeyWindow14()
    ensures Iterate(KEY_START, KeySub, CK, 14) == Quad(0xc30753ed, 0x7ee55b57, 0x6988608c, 0x30d895b7)
  {
    KeyWindow13();
    KeyRound13();
  }

  /** The key schedule after 15 steps. */
  lemma KeyWindow15()
    ensures Iterate(KEY_START, KeySub, CK, 15) == Quad(0x7ee55b57, 0x6988608c, 0x30d895b7, 0x44ba14af)
  {
    KeyWindow14();
    KeyRound14();
  }

  /** The key schedule after 16 steps. */
  lemma KeyWindow16()
    ensures Iterate(KEY_START, KeySub, CK, 16) == Quad(0x6988608c, 0x30d895b7, 0x44ba14af, 0x104495a1)
  {
    KeyWindow15();
    KeyRound15();
  }

  /** The key schedule after 17 steps. */
  lemma KeyWindow17()
    ensures Iterate(KEY_START, KeySub, CK, 17) == Quad(0x30d895b7, 0x44ba14af, 0x104495a1, 0xd120b428)
  {
    KeyWindow16();
    KeyRound16();
  }

  /** The key schedule after 18 steps. */
  lemma KeyWindow18()
    ensures Iterate(KEY_START, KeySub, CK, 18) == Quad(0x44ba14af, 0x104495a1, 0xd120b428, 0x73b55fa3)
  {
    KeyWindow17();
    KeyRound17();
  }

  /** The key schedule after 19 steps. */
  lemma KeyWindow19()
    ensures Iterate(KEY_START, KeySub, CK, 19) == Quad(0x104495a1, 0xd120b428, 0x73b55fa3, 0xcc874966)
  {
    KeyWindow18();
    KeyRound18();
  }

  /** The key schedule after 20 steps. */
  lemma KeyWindow20()
    ensures Iterate(KEY_START, KeySub, CK, 20) == Quad(0xd120b428, 0x73b55fa3, 0xcc874966, 0x92244439)
  {
    KeyWindow19();
    KeyRound19();
  }

  /** The key schedule after 21 steps. */
  lemma KeyWindow21()
    ensures Iterate(KEY_START, KeySub, CK, 21) == Quad(0x73b55fa3, 0xcc874966, 0x92244439, 0xe89e641f)
  {
    KeyWindow20();
    KeyRound20();
  }

  /** The key schedule after 22 steps. */
  lemma KeyWindow22()
    ensures Iterate(KEY_START, KeySub, CK, 22) == Quad(0xcc874966, 0x92244439, 0xe89e641f, 0x98ca015a)
  {
    KeyWindow21();
    KeyRound21();
  }

  /** The key schedule after 23 steps. */
  lemma KeyWindow23()
    ensures Iterate(KEY_START, KeySub, CK, 23) == Quad(0x92244439, 0xe89e641f, 0x98ca015a, 0xc7159060)
  {
    KeyWindow22();
    KeyRound22();
  }

  /** The key schedule after 24 steps. */
  lemma KeyWindow24()
    ensures Iterate(KEY_START, KeySub, CK, 24) == Quad(0xe89e641f, 0x98ca015a, 0xc7159060, 0x99e1fd2e)
  {
    KeyWindow23();
    KeyRound23();
  }

  /** The key schedule after 25 steps. */
  lemma KeyWindow25()
    ensures Iterate(KEY_START, KeySub, CK, 25) == Quad(0x98ca015a, 0xc7159060, 0x99e1fd2e, 0xb79bd80c)
  {
    KeyWindow24();
    KeyRound24();
  }

  /** The key schedule after 26 steps. */
  lemma KeyWindow26()
    ensures Iterate(KEY_START, KeySub, CK, 26) == Quad(0xc7159060, 0x99e1fd2e, 0xb79bd80c, 0x1d2115b0)
  {
    KeyWindow25();
    KeyRound25();
  }

  /** The key schedule after 27 steps. */
  lemma KeyWindow27()
    ensures Iterate(KEY_START, KeySub, CK, 27) == Quad(0x99e1fd2e, 0xb79bd80c, 0x1d2115b0, 0x0e228aeb)
  {
    KeyWindow26();
    KeyRound26();
  }

  /** The key schedule after 28 steps. */
  lemma KeyWindow28()
    ensures Iterate(KEY_START, KeySub, CK, 28) == Quad(0xb79bd80c, 0x1d2115b0, 0x0e228aeb, 0xf1780c81)
  {
    KeyWindow27();
    KeyRound27();
  }

  /** The key schedule after 29 steps. */
  lemma KeyWindow29()
    ensures Iterate(KEY_START, KeySub, CK, 29) == Quad(0x1d2115b0, 0x0e228aeb, 0xf1780c81, 0x428d3654)
  {
    KeyWindow28();
    KeyRound28();
  }

  /** The key schedule after 30 steps. */
  lemma KeyWindow30()
    ensures Iterate(KEY_START, KeySub, CK, 30) == Quad(0x0e228aeb, 0xf1780c81, 0x428d3654, 0x62293496)
  {
    KeyWindow29();
    KeyRound29();
  }

  /** The key schedule after 31 steps. */
  lemma KeyWindow31()
    ensures Iterate(KEY_START, KeySub, CK, 31) == Quad(0xf1780c81, 0x428d3654, 0x62293496, 0x01cf72e5)
  {
    KeyWindow30();
    KeyRound30();
  }

  /** The key schedule after 32 steps. */
  lemma KeyWindow32()
    ensures Iterate(KEY_START, KeySub, CK, 32) == Quad(0x428d3654, 0x62293496, 0x01cf72e5, 0x9124a012)
  {
    KeyWindow31();
    KeyRound31();
  }

  /** The block transformation after 1 round. */
  lemma BlockWindow1()
    ensures Iterate(BLOCK_START, TTrans, ROUND_KEYS, 1) == Quad(0x89abcdef, 0xfedcba98, 0x76543210, 0x27fad345)
  {
    BlockRound0();
  }

  /** The block transformation after 2 rounds. */
  lemma BlockWindow2()
    ensures Iterate(BLOCK_START, TTrans, ROUND_KEYS, 2) == Quad(0xfedcba98, 0x76543210, 0x27fad345, 0xa18b4cb2)
  {
    BlockWindow1();
    BlockRound1();
  }

  /** The block transformation after 3 rounds. */
  lemma BlockWindow3()
    ensures Iterate(BLOCK_START, TTrans, ROUND_KEYS, 3) == Quad(0x76543210, 0x27fad345, 0xa18b4cb2, 0x11c1e22a)
  {
    BlockWindow2();
    BlockRound2();
  }

  /** The block transformation after 4 rounds. */
  lemma BlockWindow4()
    ensures Iterate(BLOCK_START, TTrans, ROUND_KEYS, 4) == Quad(0x27fad345, 0xa18b4cb2, 0x11c1e22a, 0xcc13e2ee)
  {
    BlockWindow3();
    BlockRound3();
  }

  /** The block transformation after 5 rounds. */
  lemma BlockWindow5()
    ensures Iterate(BLOCK_START, TTrans, ROUND_KEYS, 5) == Quad(0xa18b4cb2, 0x11c1e22a, 0xcc13e2ee, 0xf87c5bd5)
  {
    BlockWindow4();
    BlockRound4();
  }

  /** The block transformation after 6 rounds. */
  lemma BlockWindow6()
    ensures Iterate(BLOCK_START, TTrans, ROUND_KEYS, 6) == Quad(0x11c1e22a, 0xcc13e2ee, 0xf87c5bd5, 0x33220757)
  {
    BlockWindow5();
    BlockRound5();
  }

  /** The block transformation after 7 rounds. */
  lemma BlockWindow7()
    ensures Iterate(BLOCK_START, TTrans, ROUND_KEYS, 7) == Quad(0xcc13e2ee, 0xf87c5bd5, 0x33220757, 0x77f4c297)
  {
    BlockWindow6();
    BlockRound6();
  }

  /** The block transformation after 8 rounds. */
  lemma BlockWindow8()
    ensures Iterate(BLOCK_START, TTrans, ROUND_KEYS, 8) == Quad(0xf87c5bd5, 0x33220757, 0x77f4c297, 0x7a96f2eb)
  {
    BlockWindow7();
    BlockRound7();
  }

  /** The block transformation after 9 rounds. */
  lemma BlockWindow9()
    ensures Iterate(BLOCK_START, TTrans, ROUND_KEYS, 9) == Quad(0x33220757, 0x77f4c297, 0x7a96f2eb, 0x27dac07f)
  {
    BlockWindow8();
    BlockRound8();
  }

  /** The block transformation after 10 rounds. */
  lemma BlockWindow10()
    ensures Iterate(BLOCK_START, TTrans, ROUND_KEYS, 10) == Quad(0x77f4c297, 0x7a96f2eb, 0x27dac07f, 0x42dd0f19)
  {
    BlockWindow9();
    BlockRound9();
  }

  /** The block transformation after 11 rounds. */
  lemma BlockWindow11()
    ensures Iterate(BLOCK_START, TTrans, ROUND_KEYS, 11) == Quad(0x7a96f2eb, 0x27dac07f, 0x42dd0f19, 0xb8a5da02)
  {
    BlockWindow10();
    BlockRound10();
  }

  /** The block transformation after 12 rounds. */
  lemma BlockWindow12()
    ensures Iterate(BLOCK_START, TTrans, ROUND_KEYS, 12) == Quad(0x27dac07f, 0x42dd0f19, 0xb8a5da02, 0x907127fa)
  {
    BlockWindow11();
    BlockRound11();
  }

  /** The block transformation after 13 rounds. */
  lemma BlockWindow13()
    ensures Iterate(BLOCK_START, TTrans, ROUND_KEYS, 13) == Quad(0x42dd0f19, 0xb8a5da02, 0x907127fa, 0x8b952b83)
  {
    BlockWindow12();
    BlockRound12();
  }

  /** The block transformation after 14 rounds. */
  lemma BlockWindow14()
    ensures Iterate(BLOCK_START, TTrans, ROUND_KEYS, 14) == Quad(0xb8a5da02, 0x907127fa, 0x8b952b83, 0xd42b7c59)
  {
    BlockWindow13();
    BlockRound13();
  }

  /** The block transformation after 15 rounds. */
  lemma BlockWindow15()
    ensures Iterate(BLOCK_START, TTrans, ROUND_KEYS, 15) == Quad(0x907127fa, 0x8b952b83, 0xd42b7c59, 0x2ffc5831)
  {
    BlockWindow14();
    BlockRound14();
  }

  /** The block transformation after 16 rounds. */
  lemma BlockWindow16()
    ensures Iterate(BLOCK_START, TTrans, ROUND_KEYS, 16) == Quad(0x8b952b83, 0xd42b7c59, 0x2ffc5831, 0xf69e6888)
  {
    BlockWindow15();
    BlockRound15();
  }

  /** The block transformation after 17 rounds. */
  lemma BlockWindow17()
    ensures Iterate(BLOCK_START, TTrans, ROUND_KEYS, 17) == Quad(0xd42b7c59, 0x2ffc5831, 0xf69e6888, 0xaf2432c4)
  {
    BlockWindow16();
    BlockRound16();
  }

  /** The block transformation after 18 rounds. */
  lemma BlockWindow18()
    ensures Iterate(BLOCK_START, TTrans, ROUND_KEYS, 18) == Quad(0x2ffc5831, 0xf69e6888, 0xaf2432c4, 0xed1ec85e)
  {
    BlockWindow17();
    BlockRound17();
  }

  /** The block transformation after 19 rounds. */
  lemma BlockWindow19()
    ensures Iterate(BLOCK_START, TTrans, ROUND_KEYS, 19) == Quad(0xf69e6888, 0xaf2432c4, 0xed1ec85e, 0x55a3ba22)
  {
    BlockWindow18();
    BlockRound18();
  }

  /** The block transformation after 20 rounds. */
  lemma BlockWindow20()
    ensures Iterate(BLOCK_START, TTrans, ROUND_KEYS, 20) == Quad(0xaf2432c4, 0xed1ec85e, 0x55a3ba22, 0x124b18aa)
  {
    BlockWindow19();
    BlockRound19();
  }

  /** The block transformation after 21 rounds. */
  lemma BlockWindow21()
    ensures Iterate(BLOCK_START, TTrans, ROUND_KEYS, 21) == Quad(0xed1ec85e, 0x55a3ba22, 0x124b18aa, 0x6ae7725f)
  {
    BlockWindow20();
    BlockRound20();
  }

  /** The block transformation after 22 rounds. */
  lemma BlockWindow22()
    ensures Iterate(BLOCK_START, TTrans, ROUND_KEYS, 22) == Quad(0x55a3ba22, 0x124b18aa, 0x6ae7725f, 0xf4cba1f9)
  {
    BlockWindow21();
    BlockRound21();
  }

  /** The block transformation after 23 rounds. */
  lemma BlockWindow23()
    ensures Iterate(BLOCK_START, TTrans, ROUND_KEYS, 23) == Quad(0x124b18aa, 0x6ae7725f, 0xf4cba1f9, 0x1dcdfa10)
  {
    BlockWindow22();
    BlockRound22();
  }

  /** The block transformation after 24 rounds. */
  lemma BlockWindow24()
    ensures Iterate(BLOCK_START, TTrans, ROUND_KEYS, 24) == Quad(0x6ae7725f, 0xf4cba1f9, 0x1dcdfa10, 0x2ff60603)
  {
    BlockWindow23();
    BlockRound23();
  }

  /** The block transformation after 25 rounds. */
  lemma BlockWindow25()
    ensures Iterate(BLOCK_START, TTrans, ROUND_KEYS, 25) == Quad(0xf4cba1f9, 0x1dcdfa10, 0x2ff60603, 0xeff24fdc)
  {
    BlockWindow24();
    BlockRound24();
  }

  /** The block transformation after 26 rounds. */
  lemma BlockWindow26()
    ensures Iterate(BLOCK_START, TTrans, ROUND_KEYS, 26) == Quad(0x1dcdfa10, 0x2ff60603, 0xeff24fdc, 0x6fe46b75)
  {
    BlockWindow25();
    BlockRound25();
  }

  /** The block transformation after 27 rounds. */
  lemma BlockWindow27()
    ensures Iterate(BLOCK_START, TTrans, ROUND_KEYS, 27) == Quad(0x2ff60603, 0xeff24fdc, 0x6fe46b75, 0x893450ad)
  {
    BlockWindow26();
    BlockRound26();
  }

  /** The block transformation after 28 rounds. */
  lemma BlockWindow28()
    ensures Iterate(BLOCK_START, TTrans, ROUND_KEYS, 28) == Quad(0xeff24fdc, 0x6fe46b75, 0x893450ad, 0x7b938f4c)
  {
    BlockWindow27();
    BlockRound27();
  }

  /** The block transformation after 29 rounds. */
  lemma BlockWindow29()
    ensures Iterate(BLOCK_START, TTrans, ROUND_KEYS, 29) == Quad(0x6fe46b75, 0x893450ad, 0x7b938f4c, 0x536e4246)
  {
    BlockWindow28();
    BlockRound28();
  }

  /** The block transformation after 30 rounds. */
  lemma BlockWindow30()
    ensures Iterate(BLOCK_START, TTrans, ROUND_KEYS, 30) == Quad(0x893450ad, 0x7b938f4c, 0x536e4246, 0x86b3e94f)
  {
    BlockWindow29();
    BlockRound29();
  }

  /** The block transformation after 31 rounds. */
  lemma BlockWindow31()
    ensures Iterate(BLOCK_START, TTrans, ROUND_KEYS, 31) == Quad(0x7b938f4c, 0x536e4246, 0x86b3e94f, 0xd206965e)
  {
    BlockWindow30();
    BlockRound30();
  }

  /** The block transformation after 32 rounds. */
  lemma BlockWindow32()
    ensures Iterate(BLOCK_START, TTrans, ROUND_KEYS, 32) == Quad(0x536e4246, 0x86b3e94f, 0xd206965e, 0x681edf34)
  {
    BlockWindow31();
    BlockRound31();
  }

  /** The first 4 round keys. */
  lemma KeyTrace1()
    ensures Trace(KEY_START, KeySub, CK, 4) == ROUND_KEYS_0
  {
    assert Trace(KEY_START, KeySub, CK, 0) == [];
    TraceFour(KEY_START, KeySub, CK, 0);
    KeyWindow1();
    KeyWindow2();
    KeyWindow3();
    KeyWindow4();
  }

  /** The first 8 round keys. */
  lemma KeyTrace2()
    ensures Trace(KEY_START, KeySub, CK, 8) == ROUND_KEYS_0 + ROUND_KEYS_1
  {
    KeyTrace1();
    TraceFour(KEY_START, KeySub, CK, 4);
    KeyWindow5();
    KeyWindow6();
    KeyWindow7();
    KeyWindow8();
  }

  /** The first 12 round keys. */
  lemma KeyTrace3()
    ensures Trace(KEY_START, KeySub, CK, 12) == ROUND_KEYS_0 + ROUND_KEYS_1 + ROUND_KEYS_2
  {
    KeyTrace2();
    TraceFour(KEY_START, KeySub, CK, 8);
    KeyWindow9();
    KeyWindow10();
    KeyWindow11();
    KeyWindow12();
  }

  /** The first 16 round keys. */
  lemma KeyTrace4()
    ensures Trace(KEY_START, KeySub, CK, 16) == ROUND_KEYS_0 + ROUND_KEYS_1 + ROUND_KEYS_2 + ROUND_KEYS_3
  {
    KeyTrace3();
    TraceFour(KEY_START, KeySub, CK, 12);
    KeyWindow13();
    KeyWindow14();
    KeyWindow15();
    KeyWindow16();
  }

  /** The first 20 round keys. */
  lemma KeyTrace5()
    ensures Trace(KEY_START, KeySub, CK, 20) == ROUND_KEYS_0 + ROUND_KEYS_1 + ROUND_KEYS_2 + ROUND_KEYS_3 + ROUND_KEYS_4
  {
    KeyTrace4();
    TraceFour(KEY_START, KeySub, CK, 16);
    KeyWindow17();
    KeyWindow18();
    KeyWindow19();
    KeyWindow20();
  }

  /** The first 24 round keys. */
  lemma KeyTrace6()
    ensures Trace(KEY_START, KeySub, CK, 24) == ROUND_KEYS_0 + ROUND_KEYS_1 + ROUND_KEYS_2 + ROUND_KEYS_3 + ROUND_KEYS_4 + ROUND_KEYS_5
  {
    KeyTrace5();
    TraceFour(KEY_START, KeySub, CK, 20);
    KeyWindow21();
    KeyWindow22();
    KeyWindow23();
    KeyWindow24();
  }

  /** The first 28 round keys. */
  lemma KeyTrace7()
    ensures Trace(KEY_START, KeySub, CK, 28) == ROUND_KEYS_0 + ROUND_KEYS_1 + ROUND_KEYS_2 + ROUND_KEYS_3 + ROUND_KEYS_4 + ROUND_KEYS_5 + ROUND_KEYS_6
  {
    KeyTrace6();
    TraceFour(KEY_START, KeySub, CK, 24);
    KeyWindow25();
    KeyWindow26();
    KeyWindow27();
    KeyWindow28();
  }

  /** The first 32 round keys. */
  lemma KeyTrace8()
    ensures Trace(KEY_START, KeySub, CK, 32) == ROUND_KEYS_0 + ROUND_KEYS_1 + ROUND_KEYS_2 + ROUND_KEYS_3 + ROUND_KEYS_4 + ROUND_KEYS_5 + ROUND_KEYS_6 + ROUND_KEYS_7
  {
    KeyTrace7();
    TraceFour(KEY_START, KeySub, CK, 28);
    KeyWindow29();
    KeyWindow30();
    KeyWindow31();
    KeyWindow32();
  }

  /** The test key, read as words and XORed with FK, is K(0..3). */
  lemma KeyStartVector()
    ensures KeyStart(BlockWords(KEY)) == KEY_START
  {
  }

  /** The plaintext read as words is X(0..3). */
  lemma BlockStartVector()
    ensures BlockQuad(PLAINTEXT) == BLOCK_START
  {
  }

  /** The last window, written out in reverse word order, is the expected ciphertext. */
  lemma CiphertextVector()
    ensures QuadBlock(Quad(0x536e4246, 0x86b3e94f, 0xd206965e, 0x681edf34)) == CIPHERTEXT
  {
  }

  /** The round keys of the test key. */
  lemma RoundKeysVector()
    ensures KeyExpansion(BlockWords(KEY)) == ROUND_KEYS
  {
    KeyStartVector();
    KeyTrace8();
  }

  /** The test `setup_cipher`: the first and the last round key of the test key. */
  lemma SetupCipherVector()
    ensures KeyExpansion(BlockWords(KEY))[0] == 0xf12186f9
    ensures KeyExpansion(BlockWords(KEY))[31] == 0x9124a012
  {
    RoundKeysVector();
  }

  /** The test `enc_and_dec`, first half: the plaintext encrypts to the expected ciphertext. */
  lemma EncryptVector()
    ensures EncryptBlock(KeyExpansion(BlockWords(KEY)), PLAINTEXT) == Ok(CIPHERTEXT)
  {
    RoundKeysVector();
    BlockStartVector();
    BlockWindow32();
    CiphertextVector();
  }

  /** The test `enc_and_dec`, second half: the ciphertext decrypts to the plaintext. */
  lemma DecryptVector()
    ensures DecryptBlock(KeyExpansion(BlockWords(KEY)), CIPHERTEXT) == Ok(PLAINTEXT)
  {
    EncryptVector();
    DecryptEncrypt(KeyExpansion(BlockWords(KEY)), PLAINTEXT);
  }

  /** The test `enc_and_dec_sm4ni`: four copies of the plaintext encrypt to four copies of the ciphertext. */
  lemma BatchVector()
    ensures EncryptBatch(KeyExpansion(BlockWords(KEY)), PLAINTEXT + PLAINTEXT + PLAINTEXT + PLAINTEXT) ==
      CIPHERTEXT + CIPHERTEXT + CIPHERTEXT + CIPHERTEXT
  {
    var block := PLAINTEXT + PLAINTEXT + PLAINTEXT + PLAINTEXT;
    QuartersSlice(PLAINTEXT, PLAINTEXT, PLAINTEXT, PLAINTEXT);
    assert Slice(block, 0) == PLAINTEXT && Slice(block, 1) == PLAINTEXT;
    assert Slice(block, 2) == PLAINTEXT && Slice(block, 3) == PLAINTEXT;
    EncryptVector();
  }
}
