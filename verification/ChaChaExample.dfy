/** The block function on words, and the example of section 2.3.2 of RFC 8439 (lib/chacha.c). */
module ChaChaExample {
  import opened ChaCha

  type Words = (Word, Word, Word, Word)

  /** The quarter round of section 2.1, on four words. */
  function Mix(a: Word, b: Word, c: Word, d: Word): Words
  {
    var a1 := Add(a, b);
    var d1 := Rol(Xor(d, a1), By16);
    var c1 := Add(c, d1);
    var b1 := Rol(Xor(b, c1), By12);
    var a2 := Add(a1, b1);
    var d2 := Rol(Xor(d1, a2), By8);
    var c2 := Add(c1, d2);
    (a2, Rol(Xor(b1, c2), By7), c2, d2)
  }

  lemma QuarterMixes(a: nat, b: nat, c: nat, d: nat, s: State)
    requires a < 16 && b < 16 && c < 16 && d < 16 && a != b && a != c && a != d && b != c && b != d && c != d
    ensures var m := Mix(s[a], s[b], s[c], s[d]); Quarter(a, b, c, d, s) == s[a := m.0][b := m.1][c := m.2][d := m.3]
  {
    hide Add, Xor, Rol, DoAll;
    QuarterRoundSteps(a, b, c, d, s);
  }

  /** Quarter rounds on the four columns, and on the four diagonals. */
  function Columns(s: State): State
  {
    var p, q, r, t := Mix(s[0], s[4], s[8], s[12]), Mix(s[1], s[5], s[9], s[13]), Mix(s[2], s[6], s[10], s[14]), Mix(s[3], s[7], s[11], s[15]);
    [p.0, q.0, r.0, t.0, p.1, q.1, r.1, t.1, p.2, q.2, r.2, t.2, p.3, q.3, r.3, t.3]
  }

  function Diagonals(s: State): State
  {
    var p, q, r, t := Mix(s[0], s[5], s[10], s[15]), Mix(s[1], s[6], s[11], s[12]), Mix(s[2], s[7], s[8], s[13]), Mix(s[3], s[4], s[9], s[14]);
    [p.0, q.0, r.0, t.0, t.1, p.1, q.1, r.1, r.2, t.2, p.2, q.2, q.3, r.3, t.3, p.3]
  }

  /** A double round is a column round and then a diagonal round. */
  lemma DoubleRoundMixes(s: State)
    ensures Program(DoubleRound()) && DoAll(DoubleRound(), s) == Diagonals(Columns(s))
  {
    hide Mix, DoAll, Quarter, DoubleRound;
    DoubleRoundSplits(s);
    ColumnQuarters(s);
    DiagonalQuarters(Columns(s));
  }

  lemma ColumnQuarters(s: State)
    ensures Quarter(3, 7, 11, 15, Quarter(2, 6, 10, 14, Quarter(1, 5, 9, 13, Quarter(0, 4, 8, 12, s)))) == Columns(s)
  {
    hide Mix, Quarter;
    QuarterMixes(0, 4, 8, 12, s);
    var s1 := Quarter(0, 4, 8, 12, s);
    QuarterMixes(1, 5, 9, 13, s1);
    var s2 := Quarter(1, 5, 9, 13, s1);
    QuarterMixes(2, 6, 10, 14, s2);
    QuarterMixes(3, 7, 11, 15, Quarter(2, 6, 10, 14, s2));
  }

  lemma DiagonalQuarters(s: State)
    ensures Quarter(3, 4, 9, 14, Quarter(2, 7, 8, 13, Quarter(1, 6, 11, 12, Quarter(0, 5, 10, 15, s)))) == Diagonals(s)
  {
    hide Mix, Quarter;
    QuarterMixes(0, 5, 10, 15, s);
    var s1 := Quarter(0, 5, 10, 15, s);
    QuarterMixes(1, 6, 11, 12, s1);
    var s2 := Quarter(1, 6, 11, 12, s1);
    QuarterMixes(2, 7, 8, 13, s2);
    QuarterMixes(3, 4, 9, 14, Quarter(2, 7, 8, 13, s2));
  }

  /** Fewer than two rounds are none. */
  lemma NoRounds(s: State, rounds: int)
    requires rounds < 2
    ensures Block(s, rounds, false) == s
  {
  }

  /** Two more rounds are one more double round. */
  lemma TwoMoreRounds(s: State, rounds: int)
    requires rounds >= 0
    ensures Program(DoubleRound()) && Block(s, rounds + 2, false) == DoAll(DoubleRound(), Block(s, rounds, false))
  {
    hide DoubleRound, DoAll;
    DoubleRoundProgram();
  }

  // ----- Words and bytes -----

  /** The four bytes of a word, lowest first, are the word again. */
  lemma BytesOfWord(w: Word)
    ensures LoadWord([ByteOf(w, 0), ByteOf(w, 1), ByteOf(w, 2), ByteOf(w, 3)], 0) == w
  {
  }

  lemma WordOfBytes(b: seq<Byte>, k: nat)
    requires k + 4 <= |b|
    ensures ByteOf(LoadWord(b, k), 0) == b[k] && ByteOf(LoadWord(b, k), 1) == b[k + 1]
    ensures ByteOf(LoadWord(b, k), 2) == b[k + 2] && ByteOf(LoadWord(b, k), 3) == b[k + 3]
  {
  }

  /** Byte `k` of a state, as the key stream reads it. */
  function StateByte(s: State, k: nat): Byte
    requires k < 64
  {
    ByteOf(s[k / 4], k % 4)
  }

  /** The text "expand 32-byte k". */
  const CONSTANTS: seq<Byte> := [0x65, 0x78, 0x70, 0x61, 0x6e, 0x64, 0x20, 0x33, 0x32, 0x2d, 0x62, 0x79, 0x74, 0x65, 0x20, 0x6b]

  /** The initial state is, byte for byte, the constants, the key, the counter and the nonce. */
  lemma InitialBytes(p: Params, counter: Word, k: nat)
    requires p.Ok() && k < 64
    ensures Initial(p, counter)[12] == counter
    ensures k < 48 || k >= 52 ==>
              StateByte(Initial(p, counter), k) == if k < 16 then CONSTANTS[k] else if k < 48 then p.key[k - 16] else p.nonce[k - 52]
  {
    hide Initial, ByteOf, LoadWord;
    if k < 16 {
      ConstantBytes();
    } else if k < 48 {
      InitialKey(p, counter, k / 4 - 4);
      WordOfBytes(p.key, 4 * (k / 4 - 4));
    } else if k >= 52 {
      InitialNonce(p, counter, k / 4 - 13);
      WordOfBytes(p.nonce, 4 * (k / 4 - 13));
    }
    InitialConstants(p, counter);
  }

  lemma InitialConstants(p: Params, counter: Word)
    requires p.Ok()
    ensures var s := Initial(p, counter);
            s[0] == 0x61707865 && s[1] == 0x3320646E && s[2] == 0x79622D32 && s[3] == 0x6B206574 && s[12] == counter
  {
    hide LoadWord;
  }

  lemma InitialKey(p: Params, counter: Word, i: nat)
    requires p.Ok() && i < 8
    ensures Initial(p, counter)[4 + i] == LoadWord(p.key, 4 * i)
  {
    hide LoadWord;
  }

  lemma InitialNonce(p: Params, counter: Word, i: nat)
    requires p.Ok() && i < 3
    ensures Initial(p, counter)[13 + i] == LoadWord(p.nonce, 4 * i)
  {
    hide LoadWord;
  }

  lemma ConstantBytes()
    ensures ByteOf(0x61707865, 0) == 0x65 && ByteOf(0x61707865, 1) == 0x78 && ByteOf(0x61707865, 2) == 0x70 && ByteOf(0x61707865, 3) == 0x61
    ensures ByteOf(0x3320646E, 0) == 0x6e && ByteOf(0x3320646E, 1) == 0x64 && ByteOf(0x3320646E, 2) == 0x20 && ByteOf(0x3320646E, 3) == 0x33
    ensures ByteOf(0x79622D32, 0) == 0x32 && ByteOf(0x79622D32, 1) == 0x2d && ByteOf(0x79622D32, 2) == 0x62 && ByteOf(0x79622D32, 3) == 0x79
    ensures ByteOf(0x6B206574, 0) == 0x74 && ByteOf(0x6B206574, 1) == 0x65 && ByteOf(0x6B206574, 2) == 0x20 && ByteOf(0x6B206574, 3) == 0x6b
  {
  }

  // ----- The example -----

  const ROUND_0: State := [0x61707865, 0x3320646e, 0x79622d32, 0x6b206574, 0x03020100, 0x07060504, 0x0b0a0908, 0x0f0e0d0c,
                           0x13121110, 0x17161514, 0x1b1a1918, 0x1f1e1d1c, 0x00000001, 0x09000000, 0x4a000000, 0x00000000]
  const ROUND_1: State := [0xabbaa25c, 0x1efa51ea, 0x7354fbdf, 0x83d2dc69, 0x3a465196, 0x1c7e64f6, 0xb12fb628, 0xf05b6976,
                           0x6b3ca454, 0x08eb14b1, 0xbf8a9ac9, 0xe444df3b, 0xdec62ed2, 0x8862cc77, 0x6e35b345, 0x52a647f1]
  const ROUND_2: State := [0xcd52e917, 0x85ab03b4, 0xb3457395, 0xf96de7dd, 0xc4b7cd22, 0x5c2e187a, 0xc95eb461, 0x316c801a,
                           0x7bf7d740, 0x7eddd644, 0xf1a1bdf5, 0x761246ca, 0x6b0d58a3, 0x6798471a, 0xd737f167, 0xf173888d]
  const ROUND_3: State := [0xe3e1111b, 0xa6291491, 0x5a82b80c, 0x4500fd45, 0xd65b5b5b, 0xf56af099, 0x4ccc8103, 0xc94d29e2,
                           0xe67aec54, 0xf7a52d82, 0xdb470914, 0xdfb40f1d, 0x7be81c0d, 0x1d92d0fd, 0x13139f8c, 0x7a26ecaa]
  const ROUND_4: State := [0xcf1a7584, 0x048927ec, 0x54051fda, 0xc244ff28, 0x901d2f40, 0x7974b81c, 0x378dcfb4, 0xcd47fd0e,
                           0x2dafb216, 0x27c89cd6, 0xcd3c9aa0, 0x79fc89c7, 0x10aef18d, 0x16218765, 0x68f76705, 0x04d6ee22]
  const ROUND_5: State := [0xa22695f2, 0xa908cf6c, 0xe6ae05b2, 0xfe0ff04b, 0x1ece4458, 0xe82b726f, 0x5a21ab90, 0x87698c64,
                           0xf2d36da6, 0xf4dab980, 0x7baf5573, 0xa78c270d, 0x6fda6bf7, 0x65a4b0ce, 0x25e6d76e, 0x1b7b11ec]
  const ROUND_6: State := [0x03a14032, 0x66b15927, 0x9d6b6b42, 0xb84c4109, 0xa7143ae0, 0xa09b33dd, 0xa5daaf88, 0x2fd91a73,
                           0xc90c6b18, 0x5a202413, 0xc20e01b6, 0x72cd6b74, 0xba35d777, 0xb360f1bf, 0x8178315b, 0x2cd11b1a]
  const ROUND_7: State := [0xfecd0838, 0x160ab468, 0x9a0ddf4e, 0xbac7154a, 0xcedf6624, 0xb11de6c4, 0xbd7810ef, 0xd22b5643,
                           0x1d8a33ea, 0x87dc1ca9, 0x89bd34a5, 0x5505ef62, 0xa818b852, 0xb100446a, 0x9c1d70b1, 0xa1d1befa]
  const ROUND_8: State := [0x9a2d3589, 0x0b23fc4e, 0x40af3b6b, 0xceea8144, 0x0a1bffc6, 0x5e5993f7, 0x9904c2e7, 0x0d334718,
                           0xe46c6354, 0xc9503229, 0x04fef5aa, 0xf8933f72, 0x2687d476, 0x54e65231, 0x3594ffc5, 0x2b3bb2ca]
  const ROUND_9: State := [0x85e7824a, 0x4940cd9e, 0xfbe7684b, 0x7335d03d, 0x1c133ea1, 0xbba40b0f, 0x9413992a, 0xa4ab2040,
                           0xa3a66a86, 0xc0b4754f, 0x771b4ecb, 0x165151a1, 0xde008464, 0x34f0058b, 0x70846cfa, 0xa3271b09]
  const ROUND_10: State := [0xc53318c5, 0xca325d96, 0x7e7d11cb, 0x3404e2ca, 0x26d7cf73, 0x6088d379, 0xc0f0e9bd, 0xe310cdb9,
                            0xae2ca8db, 0x42f67c72, 0x71669aca, 0x975c171d, 0x9e5ec228, 0x7d85a9f3, 0x201d0756, 0x63fa6953]
  const ROUND_11: State := [0x9950b826, 0xcac7ccc6, 0x84a67673, 0xdb3109a6, 0x2121065a, 0xc12bdadb, 0xcae3acd1, 0x594616cb,
                            0x19078de2, 0x178ecc02, 0xe6adbdb2, 0x52a9d50e, 0x40ca72b3, 0x3b9bf852, 0x78690378, 0xe17d4902]
  const ROUND_12: State := [0x04a3131a, 0x66176309, 0x0415bab1, 0x61b880a2, 0x36cc86c7, 0xbf8a4465, 0xf77dd720, 0xfc0bdc90,
                            0x07d13aca, 0xeb0be9af, 0x61599491, 0x918512dc, 0x33b6686d, 0x795cc671, 0xc0049972, 0xa0a81bde]
  const ROUND_13: State := [0x57c5e6da, 0x35ce46a8, 0x0c041bb9, 0xfa91df79, 0x8e85d82f, 0xb4819d06, 0xb63be200, 0xacd221e4,
                            0x434b4749, 0x1d459c00, 0x111cfe2c, 0x55942604, 0x49ee03a6, 0xd11a5554, 0xa7202e04, 0x7d2215bc]
  const ROUND_14: State := [0x9b70f51f, 0x7ea8ac11, 0x21e54da9, 0xca393b2f, 0x93b08686, 0x6a4c50ae, 0x19212a5a, 0x9b032958,
                            0xd839165e, 0x4c06e28a, 0xd3fde99e, 0x26acc13d, 0xa609f555, 0x2c246549, 0x95151853, 0x2c847a0d]
  const ROUND_15: State := [0xc0b18aee, 0x087445ba, 0x36e52ad9, 0xa777426a, 0xdeb54e9c, 0x802c883b, 0x06e86889, 0x3c002680,
                            0xa82d65d4, 0x687f11eb, 0xe9d36207, 0x4242ddae, 0x4103c64e, 0x82816a91, 0xb584ca56, 0xfd0bd2b9]
  const ROUND_16: State := [0xca5c85dd, 0x93a4f90e, 0xd9f0df58, 0x26dd82dd, 0x982563f8, 0x712aa9ff, 0x279a61e8, 0x970f72bd,
                            0x1c25931a, 0x5180bb10, 0x779c27e7, 0x54077e08, 0xa9b751fb, 0x382f3ce2, 0x8db1757d, 0xcc38080b]
  const ROUND_17: State := [0x765c6e9c, 0x5ab09b11, 0x3ee7da04, 0x37c31203, 0x9046ecaa, 0x7b88d882, 0xb9b577dd, 0x156de7ed,
                            0x46fa091e, 0x5117e9b5, 0x862ff22b, 0xa3fcc7a6, 0x72a5aace, 0x5fa7f1c5, 0xda563e0a, 0x5263d7ca]
  const ROUND_18: State := [0xb6b87de6, 0x9a016148, 0x93859815, 0x4915e6cc, 0xdc33c122, 0x98e18fa3, 0x5ffbe8fc, 0xf7154b8b,
                            0x28c1fcb3, 0xc4b38f9d, 0x83e2f5d7, 0x7d24b98b, 0x21078b22, 0xb193e7a3, 0xb2f49389, 0x6cde6026]
  const ROUND_19: State := [0x8a07ff15, 0x0cadc51c, 0x017c8da9, 0x4afbe5df, 0x913768fe, 0x442a0c0c, 0x598fe3bb, 0x47d18828,
                            0x0a39aedc, 0xc1428029, 0x7b48135f, 0x5a5f1098, 0x2d4cfe3e, 0xe5466d1b, 0xe4ccdc13, 0x8ac92a18]
  const ROUND_20: State := [0x837778ab, 0xe238d763, 0xa67ae21e, 0x5950bb2f, 0xc4f2d0c7, 0xfc62bb2f, 0x8fa018fc, 0x3f5ec7b7,
                            0x335271c2, 0xf29489f3, 0xeabda8fc, 0x82e46ebd, 0xd19c12b4, 0xb04e16de, 0x9e83d0cb, 0x4e3c50a2]

  lemma Round1()
    ensures Columns(ROUND_0) == ROUND_1
  {
    assert Mix(0x61707865, 0x03020100, 0x13121110, 0x00000001) == (0xabbaa25c, 0x3a465196, 0x6b3ca454, 0xdec62ed2);
    assert Mix(0x3320646e, 0x07060504, 0x17161514, 0x09000000) == (0x1efa51ea, 0x1c7e64f6, 0x08eb14b1, 0x8862cc77);
    assert Mix(0x79622d32, 0x0b0a0908, 0x1b1a1918, 0x4a000000) == (0x7354fbdf, 0xb12fb628, 0xbf8a9ac9, 0x6e35b345);
    assert Mix(0x6b206574, 0x0f0e0d0c, 0x1f1e1d1c, 0x00000000) == (0x83d2dc69, 0xf05b6976, 0xe444df3b, 0x52a647f1);
    hide Mix;
  }

  lemma Round2()
    ensures Diagonals(ROUND_1) == ROUND_2
  {
    assert Mix(0xabbaa25c, 0x1c7e64f6, 0xbf8a9ac9, 0x52a647f1) == (0xcd52e917, 0x5c2e187a, 0xf1a1bdf5, 0xf173888d);
    assert Mix(0x1efa51ea, 0xb12fb628, 0xe444df3b, 0xdec62ed2) == (0x85ab03b4, 0xc95eb461, 0x761246ca, 0x6b0d58a3);
    assert Mix(0x7354fbdf, 0xf05b6976, 0x6b3ca454, 0x8862cc77) == (0xb3457395, 0x316c801a, 0x7bf7d740, 0x6798471a);
    assert Mix(0x83d2dc69, 0x3a465196, 0x08eb14b1, 0x6e35b345) == (0xf96de7dd, 0xc4b7cd22, 0x7eddd644, 0xd737f167);
    hide Mix;
  }

  lemma Round3()
    ensures Columns(ROUND_2) == ROUND_3
  {
    assert Mix(0xcd52e917, 0xc4b7cd22, 0x7bf7d740, 0x6b0d58a3) == (0xe3e1111b, 0xd65b5b5b, 0xe67aec54, 0x7be81c0d);
    assert Mix(0x85ab03b4, 0x5c2e187a, 0x7eddd644, 0x6798471a) == (0xa6291491, 0xf56af099, 0xf7a52d82, 0x1d92d0fd);
    assert Mix(0xb3457395, 0xc95eb461, 0xf1a1bdf5, 0xd737f167) == (0x5a82b80c, 0x4ccc8103, 0xdb470914, 0x13139f8c);
    assert Mix(0xf96de7dd, 0x316c801a, 0x761246ca, 0xf173888d) == (0x4500fd45, 0xc94d29e2, 0xdfb40f1d, 0x7a26ecaa);
    hide Mix;
  }

  lemma Round4()
    ensures Diagonals(ROUND_3) == ROUND_4
  {
    assert Mix(0xe3e1111b, 0xf56af099, 0xdb470914, 0x7a26ecaa) == (0xcf1a7584, 0x7974b81c, 0xcd3c9aa0, 0x04d6ee22);
    assert Mix(0xa6291491, 0x4ccc8103, 0xdfb40f1d, 0x7be81c0d) == (0x048927ec, 0x378dcfb4, 0x79fc89c7, 0x10aef18d);
    assert Mix(0x5a82b80c, 0xc94d29e2, 0xe67aec54, 0x1d92d0fd) == (0x54051fda, 0xcd47fd0e, 0x2dafb216, 0x16218765);
    assert Mix(0x4500fd45, 0xd65b5b5b, 0xf7a52d82, 0x13139f8c) == (0xc244ff28, 0x901d2f40, 0x27c89cd6, 0x68f76705);
    hide Mix;
  }

  lemma Round5()
    ensures Columns(ROUND_4) == ROUND_5
  {
    assert Mix(0xcf1a7584, 0x901d2f40, 0x2dafb216, 0x10aef18d) == (0xa22695f2, 0x1ece4458, 0xf2d36da6, 0x6fda6bf7);
    assert Mix(0x048927ec, 0x7974b81c, 0x27c89cd6, 0x16218765) == (0xa908cf6c, 0xe82b726f, 0xf4dab980, 0x65a4b0ce);
    assert Mix(0x54051fda, 0x378dcfb4, 0xcd3c9aa0, 0x68f76705) == (0xe6ae05b2, 0x5a21ab90, 0x7baf5573, 0x25e6d76e);
    assert Mix(0xc244ff28, 0xcd47fd0e, 0x79fc89c7, 0x04d6ee22) == (0xfe0ff04b, 0x87698c64, 0xa78c270d, 0x1b7b11ec);
    hide Mix;
  }

  lemma Round6()
    ensures Diagonals(ROUND_5) == ROUND_6
  {
    assert Mix(0xa22695f2, 0xe82b726f, 0x7baf5573, 0x1b7b11ec) == (0x03a14032, 0xa09b33dd, 0xc20e01b6, 0x2cd11b1a);
    assert Mix(0xa908cf6c, 0x5a21ab90, 0xa78c270d, 0x6fda6bf7) == (0x66b15927, 0xa5daaf88, 0x72cd6b74, 0xba35d777);
    assert Mix(0xe6ae05b2, 0x87698c64, 0xf2d36da6, 0x65a4b0ce) == (0x9d6b6b42, 0x2fd91a73, 0xc90c6b18, 0xb360f1bf);
    assert Mix(0xfe0ff04b, 0x1ece4458, 0xf4dab980, 0x25e6d76e) == (0xb84c4109, 0xa7143ae0, 0x5a202413, 0x8178315b);
    hide Mix;
  }

  lemma Round7()
    ensures Columns(ROUND_6) == ROUND_7
  {
    assert Mix(0x03a14032, 0xa7143ae0, 0xc90c6b18, 0xba35d777) == (0xfecd0838, 0xcedf6624, 0x1d8a33ea, 0xa818b852);
    assert Mix(0x66b15927, 0xa09b33dd, 0x5a202413, 0xb360f1bf) == (0x160ab468, 0xb11de6c4, 0x87dc1ca9, 0xb100446a);
    assert Mix(0x9d6b6b42, 0xa5daaf88, 0xc20e01b6, 0x8178315b) == (0x9a0ddf4e, 0xbd7810ef, 0x89bd34a5, 0x9c1d70b1);
    assert Mix(0xb84c4109, 0x2fd91a73, 0x72cd6b74, 0x2cd11b1a) == (0xbac7154a, 0xd22b5643, 0x5505ef62, 0xa1d1befa);
    hide Mix;
  }

  lemma Round8()
    ensures Diagonals(ROUND_7) == ROUND_8
  {
    assert Mix(0xfecd0838, 0xb11de6c4, 0x89bd34a5, 0xa1d1befa) == (0x9a2d3589, 0x5e5993f7, 0x04fef5aa, 0x2b3bb2ca);
    assert Mix(0x160ab468, 0xbd7810ef, 0x5505ef62, 0xa818b852) == (0x0b23fc4e, 0x9904c2e7, 0xf8933f72, 0x2687d476);
    assert Mix(0x9a0ddf4e, 0xd22b5643, 0x1d8a33ea, 0xb100446a) == (0x40af3b6b, 0x0d334718, 0xe46c6354, 0x54e65231);
    assert Mix(0xbac7154a, 0xcedf6624, 0x87dc1ca9, 0x9c1d70b1) == (0xceea8144, 0x0a1bffc6, 0xc9503229, 0x3594ffc5);
    hide Mix;
  }

  lemma Round9()
    ensures Columns(ROUND_8) == ROUND_9
  {
    assert Mix(0x9a2d3589, 0x0a1bffc6, 0xe46c6354, 0x2687d476) == (0x85e7824a, 0x1c133ea1, 0xa3a66a86, 0xde008464);
    assert Mix(0x0b23fc4e, 0x5e5993f7, 0xc9503229, 0x54e65231) == (0x4940cd9e, 0xbba40b0f, 0xc0b4754f, 0x34f0058b);
    assert Mix(0x40af3b6b, 0x9904c2e7, 0x04fef5aa, 0x3594ffc5) == (0xfbe7684b, 0x9413992a, 0x771b4ecb, 0x70846cfa);
    assert Mix(0xceea8144, 0x0d334718, 0xf8933f72, 0x2b3bb2ca) == (0x7335d03d, 0xa4ab2040, 0x165151a1, 0xa3271b09);
    hide Mix;
  }

  lemma Round10()
    ensures Diagonals(ROUND_9) == ROUND_10
  {
    assert Mix(0x85e7824a, 0xbba40b0f, 0x771b4ecb, 0xa3271b09) == (0xc53318c5, 0x6088d379, 0x71669aca, 0x63fa6953);
    assert Mix(0x4940cd9e, 0x9413992a, 0x165151a1, 0xde008464) == (0xca325d96, 0xc0f0e9bd, 0x975c171d, 0x9e5ec228);
    assert Mix(0xfbe7684b, 0xa4ab2040, 0xa3a66a86, 0x34f0058b) == (0x7e7d11cb, 0xe310cdb9, 0xae2ca8db, 0x7d85a9f3);
    assert Mix(0x7335d03d, 0x1c133ea1, 0xc0b4754f, 0x70846cfa) == (0x3404e2ca, 0x26d7cf73, 0x42f67c72, 0x201d0756);
    hide Mix;
  }

  lemma Round11()
    ensures Columns(ROUND_10) == ROUND_11
  {
    assert Mix(0xc53318c5, 0x26d7cf73, 0xae2ca8db, 0x9e5ec228) == (0x9950b826, 0x2121065a, 0x19078de2, 0x40ca72b3);
    assert Mix(0xca325d96, 0x6088d379, 0x42f67c72, 0x7d85a9f3) == (0xcac7ccc6, 0xc12bdadb, 0x178ecc02, 0x3b9bf852);
    assert Mix(0x7e7d11cb, 0xc0f0e9bd, 0x71669aca, 0x201d0756) == (0x84a67673, 0xcae3acd1, 0xe6adbdb2, 0x78690378);
    assert Mix(0x3404e2ca, 0xe310cdb9, 0x975c171d, 0x63fa6953) == (0xdb3109a6, 0x594616cb, 0x52a9d50e, 0xe17d4902);
    hide Mix;
  }

  lemma Round12()
    ensures Diagonals(ROUND_11) == ROUND_12
  {
    assert Mix(0x9950b826, 0xc12bdadb, 0xe6adbdb2, 0xe17d4902) == (0x04a3131a, 0xbf8a4465, 0x61599491, 0xa0a81bde);
    assert Mix(0xcac7ccc6, 0xcae3acd1, 0x52a9d50e, 0x40ca72b3) == (0x66176309, 0xf77dd720, 0x918512dc, 0x33b6686d);
    assert Mix(0x84a67673, 0x594616cb, 0x19078de2, 0x3b9bf852) == (0x0415bab1, 0xfc0bdc90, 0x07d13aca, 0x795cc671);
    assert Mix(0xdb3109a6, 0x2121065a, 0x178ecc02, 0x78690378) == (0x61b880a2, 0x36cc86c7, 0xeb0be9af, 0xc0049972);
    hide Mix;
  }

  lemma Round13()
    ensures Columns(ROUND_12) == ROUND_13
  {
    assert Mix(0x04a3131a, 0x36cc86c7, 0x07d13aca, 0x33b6686d) == (0x57c5e6da, 0x8e85d82f, 0x434b4749, 0x49ee03a6);
    assert Mix(0x66176309, 0xbf8a4465, 0xeb0be9af, 0x795cc671) == (0x35ce46a8, 0xb4819d06, 0x1d459c00, 0xd11a5554);
    assert Mix(0x0415bab1, 0xf77dd720, 0x61599491, 0xc0049972) == (0x0c041bb9, 0xb63be200, 0x111cfe2c, 0xa7202e04);
    assert Mix(0x61b880a2, 0xfc0bdc90, 0x918512dc, 0xa0a81bde) == (0xfa91df79, 0xacd221e4, 0x55942604, 0x7d2215bc);
    hide Mix;
  }

  lemma Round14()
    ensures Diagonals(ROUND_13) == ROUND_14
  {
    assert Mix(0x57c5e6da, 0xb4819d06, 0x111cfe2c, 0x7d2215bc) == (0x9b70f51f, 0x6a4c50ae, 0xd3fde99e, 0x2c847a0d);
    assert Mix(0x35ce46a8, 0xb63be200, 0x55942604, 0x49ee03a6) == (0x7ea8ac11, 0x19212a5a, 0x26acc13d, 0xa609f555);
    assert Mix(0x0c041bb9, 0xacd221e4, 0x434b4749, 0xd11a5554) == (0x21e54da9, 0x9b032958, 0xd839165e, 0x2c246549);
    assert Mix(0xfa91df79, 0x8e85d82f, 0x1d459c00, 0xa7202e04) == (0xca393b2f, 0x93b08686, 0x4c06e28a, 0x95151853);
    hide Mix;
  }

  lemma Round15()
    ensures Columns(ROUND_14) == ROUND_15
  {
    assert Mix(0x9b70f51f, 0x93b08686, 0xd839165e, 0xa609f555) == (0xc0b18aee, 0xdeb54e9c, 0xa82d65d4, 0x4103c64e);
    assert Mix(0x7ea8ac11, 0x6a4c50ae, 0x4c06e28a, 0x2c246549) == (0x087445ba, 0x802c883b, 0x687f11eb, 0x82816a91);
    assert Mix(0x21e54da9, 0x19212a5a, 0xd3fde99e, 0x95151853) == (0x36e52ad9, 0x06e86889, 0xe9d36207, 0xb584ca56);
    assert Mix(0xca393b2f, 0x9b032958, 0x26acc13d, 0x2c847a0d) == (0xa777426a, 0x3c002680, 0x4242ddae, 0xfd0bd2b9);
    hide Mix;
  }

  lemma Round16()
    ensures Diagonals(ROUND_15) == ROUND_16
  {
    assert Mix(0xc0b18aee, 0x802c883b, 0xe9d36207, 0xfd0bd2b9) == (0xca5c85dd, 0x712aa9ff, 0x779c27e7, 0xcc38080b);
    assert Mix(0x087445ba, 0x06e86889, 0x4242ddae, 0x4103c64e) == (0x93a4f90e, 0x279a61e8, 0x54077e08, 0xa9b751fb);
    assert Mix(0x36e52ad9, 0x3c002680, 0xa82d65d4, 0x82816a91) == (0xd9f0df58, 0x970f72bd, 0x1c25931a, 0x382f3ce2);
    assert Mix(0xa777426a, 0xdeb54e9c, 0x687f11eb, 0xb584ca56) == (0x26dd82dd, 0x982563f8, 0x5180bb10, 0x8db1757d);
    hide Mix;
  }

  lemma Round17()
    ensures Columns(ROUND_16) == ROUND_17
  {
    assert Mix(0xca5c85dd, 0x982563f8, 0x1c25931a, 0xa9b751fb) == (0x765c6e9c, 0x9046ecaa, 0x46fa091e, 0x72a5aace);
    assert Mix(0x93a4f90e, 0x712aa9ff, 0x5180bb10, 0x382f3ce2) == (0x5ab09b11, 0x7b88d882, 0x5117e9b5, 0x5fa7f1c5);
    assert Mix(0xd9f0df58, 0x279a61e8, 0x779c27e7, 0x8db1757d) == (0x3ee7da04, 0xb9b577dd, 0x862ff22b, 0xda563e0a);
    assert Mix(0x26dd82dd, 0x970f72bd, 0x54077e08, 0xcc38080b) == (0x37c31203, 0x156de7ed, 0xa3fcc7a6, 0x5263d7ca);
    hide Mix;
  }

  lemma Round18()
    ensures Diagonals(ROUND_17) == ROUND_18
  {
    assert Mix(0x765c6e9c, 0x7b88d882, 0x862ff22b, 0x5263d7ca) == (0xb6b87de6, 0x98e18fa3, 0x83e2f5d7, 0x6cde6026);
    assert Mix(0x5ab09b11, 0xb9b577dd, 0xa3fcc7a6, 0x72a5aace) == (0x9a016148, 0x5ffbe8fc, 0x7d24b98b, 0x21078b22);
    assert Mix(0x3ee7da04, 0x156de7ed, 0x46fa091e, 0x5fa7f1c5) == (0x93859815, 0xf7154b8b, 0x28c1fcb3, 0xb193e7a3);
    assert Mix(0x37c31203, 0x9046ecaa, 0x5117e9b5, 0xda563e0a) == (0x4915e6cc, 0xdc33c122, 0xc4b38f9d, 0xb2f49389);
    hide Mix;
  }

  lemma Round19()
    ensures Columns(ROUND_18) == ROUND_19
  {
    assert Mix(0xb6b87de6, 0xdc33c122, 0x28c1fcb3, 0x21078b22) == (0x8a07ff15, 0x913768fe, 0x0a39aedc, 0x2d4cfe3e);
    assert Mix(0x9a016148, 0x98e18fa3, 0xc4b38f9d, 0xb193e7a3) == (0x0cadc51c, 0x442a0c0c, 0xc1428029, 0xe5466d1b);
    assert Mix(0x93859815, 0x5ffbe8fc, 0x83e2f5d7, 0xb2f49389) == (0x017c8da9, 0x598fe3bb, 0x7b48135f, 0xe4ccdc13);
    assert Mix(0x4915e6cc, 0xf7154b8b, 0x7d24b98b, 0x6cde6026) == (0x4afbe5df, 0x47d18828, 0x5a5f1098, 0x8ac92a18);
    hide Mix;
  }

  lemma Round20()
    ensures Diagonals(ROUND_19) == ROUND_20
  {
    assert Mix(0x8a07ff15, 0x442a0c0c, 0x7b48135f, 0x8ac92a18) == (0x837778ab, 0xfc62bb2f, 0xeabda8fc, 0x4e3c50a2);
    assert Mix(0x0cadc51c, 0x598fe3bb, 0x5a5f1098, 0x2d4cfe3e) == (0xe238d763, 0x8fa018fc, 0x82e46ebd, 0xd19c12b4);
    assert Mix(0x017c8da9, 0x47d18828, 0x0a39aedc, 0xe5466d1b) == (0xa67ae21e, 0x3f5ec7b7, 0x335271c2, 0xb04e16de);
    assert Mix(0x4afbe5df, 0x913768fe, 0xc1428029, 0xe4ccdc13) == (0x5950bb2f, 0xc4f2d0c7, 0xf29489f3, 0x9e83d0cb);
    hide Mix;
  }

  /** The key, the nonce and the counter of the example. */
  const EXAMPLE := Params(seq(32, i requires 0 <= i < 32 => KeyByte(i)), [0, 0, 0, 9, 0, 0, 0, 0x4a, 0, 0, 0, 0], 20)

  function KeyByte(i: nat): Byte
    requires i < 32
  {
    i as Byte
  }

  /** The initial state is the constants, the key, the counter and the nonce. */
  lemma ExampleStarts()
    ensures EXAMPLE.Ok() && Initial(EXAMPLE, 1) == ROUND_0
  {
    ExampleKey();
    ExampleNonce();
    hide LoadWord;
  }

  /** LoadWord on four given bytes. */
  function WordOf(a: Byte, b: Byte, c: Byte, d: Byte): Word
  {
    (a as Word) | ((b as Word) << 8) | ((c as Word) << 16) | ((d as Word) << 24)
  }

  lemma LoadIs(b: seq<Byte>, k: nat)
    requires k + 4 <= |b|
    ensures LoadWord(b, k) == WordOf(b[k], b[k + 1], b[k + 2], b[k + 3])
  {
  }

  lemma KeyWords()
    ensures WordOf(KeyByte(0), KeyByte(1), KeyByte(2), KeyByte(3)) == 0x03020100 && WordOf(KeyByte(4), KeyByte(5), KeyByte(6), KeyByte(7)) == 0x07060504
    ensures WordOf(KeyByte(8), KeyByte(9), KeyByte(10), KeyByte(11)) == 0x0b0a0908 && WordOf(KeyByte(12), KeyByte(13), KeyByte(14), KeyByte(15)) == 0x0f0e0d0c
    ensures WordOf(KeyByte(16), KeyByte(17), KeyByte(18), KeyByte(19)) == 0x13121110 && WordOf(KeyByte(20), KeyByte(21), KeyByte(22), KeyByte(23)) == 0x17161514
    ensures WordOf(KeyByte(24), KeyByte(25), KeyByte(26), KeyByte(27)) == 0x1b1a1918 && WordOf(KeyByte(28), KeyByte(29), KeyByte(30), KeyByte(31)) == 0x1f1e1d1c
  {
  }

  lemma ExampleKey()
    ensures EXAMPLE.Ok()
    ensures LoadWord(EXAMPLE.key, 0) == 0x03020100 && LoadWord(EXAMPLE.key, 4) == 0x07060504
    ensures LoadWord(EXAMPLE.key, 8) == 0x0b0a0908 && LoadWord(EXAMPLE.key, 12) == 0x0f0e0d0c
    ensures LoadWord(EXAMPLE.key, 16) == 0x13121110 && LoadWord(EXAMPLE.key, 20) == 0x17161514
    ensures LoadWord(EXAMPLE.key, 24) == 0x1b1a1918 && LoadWord(EXAMPLE.key, 28) == 0x1f1e1d1c
  {
    hide LoadWord, WordOf, KeyByte;
    KeyWords();
    LoadIs(EXAMPLE.key, 0);
    LoadIs(EXAMPLE.key, 4);
    LoadIs(EXAMPLE.key, 8);
    LoadIs(EXAMPLE.key, 12);
    LoadIs(EXAMPLE.key, 16);
    LoadIs(EXAMPLE.key, 20);
    LoadIs(EXAMPLE.key, 24);
    LoadIs(EXAMPLE.key, 28);
  }

  lemma ExampleNonce()
    ensures EXAMPLE.Ok() && LoadWord(EXAMPLE.nonce, 0) == 0x09000000 && LoadWord(EXAMPLE.nonce, 4) == 0x4a000000 && LoadWord(EXAMPLE.nonce, 8) == 0
  {
  }

  lemma OneMore(rounds: nat, s: State)
    requires Block(ROUND_0, rounds, false) == s
    ensures Block(ROUND_0, rounds + 2, false) == Diagonals(Columns(s))
  {
    hide *;
    TwoMoreRounds(ROUND_0, rounds);
    DoubleRoundMixes(s);
  }

  lemma ExampleRounds()
    ensures Block(ROUND_0, 20, false) == ROUND_20
  {
    hide *;
    NoRounds(ROUND_0, 0);
    OneMore(0, ROUND_0);
    Round1();
    Round2();
    OneMore(2, ROUND_2);
    Round3();
    Round4();
    OneMore(4, ROUND_4);
    Round5();
    Round6();
    OneMore(6, ROUND_6);
    Round7();
    Round8();
    OneMore(8, ROUND_8);
    Round9();
    Round10();
    OneMore(10, ROUND_10);
    Round11();
    Round12();
    OneMore(12, ROUND_12);
    Round13();
    Round14();
    OneMore(14, ROUND_14);
    Round15();
    Round16();
    OneMore(16, ROUND_16);
    Round17();
    Round18();
    OneMore(18, ROUND_18);
    Round19();
    Round20();
  }

  lemma FinalAddition(s: State, rounds: int)
    ensures Block(s, rounds, true) == AddAll(Block(s, rounds, false), s)
  {
  }

  lemma ExampleAdds()
    ensures AddAll(ROUND_20, ROUND_0) ==
            [0xe4e7f110, 0x15593bd1, 0x1fdd0f50, 0xc47120a3, 0xc7f4d1c7, 0x0368c033, 0x9aaa2204, 0x4e6cd4c3,
             0x466482d2, 0x09aa9f07, 0x05d7c214, 0xa2028bd9, 0xd19c12b5, 0xb94e16de, 0xe883d0cb, 0x4e3c50a2]
  {
    var r := AddAll(ROUND_20, ROUND_0);
    assert r[0] == 0xe4e7f110 && r[1] == 0x15593bd1 && r[2] == 0x1fdd0f50 && r[3] == 0xc47120a3;
    assert r[4] == 0xc7f4d1c7 && r[5] == 0x0368c033 && r[6] == 0x9aaa2204 && r[7] == 0x4e6cd4c3;
    assert r[8] == 0x466482d2 && r[9] == 0x09aa9f07 && r[10] == 0x05d7c214 && r[11] == 0xa2028bd9;
    assert r[12] == 0xd19c12b5 && r[13] == 0xb94e16de && r[14] == 0xe883d0cb && r[15] == 0x4e3c50a2;
  }

  /** Twenty rounds and the final addition give the block of the RFC. */
  lemma BlockExample()
    ensures EXAMPLE.Ok()
    ensures Block(Initial(EXAMPLE, 1), EXAMPLE.rounds, true) ==
            [0xe4e7f110, 0x15593bd1, 0x1fdd0f50, 0xc47120a3, 0xc7f4d1c7, 0x0368c033, 0x9aaa2204, 0x4e6cd4c3,
             0x466482d2, 0x09aa9f07, 0x05d7c214, 0xa2028bd9, 0xd19c12b5, 0xb94e16de, 0xe883d0cb, 0x4e3c50a2]
  {
    hide Block, AddAll, Initial;
    ExampleStarts();
    ExampleRounds();
    FinalAddition(ROUND_0, 20);
    ExampleAdds();
  }
}
