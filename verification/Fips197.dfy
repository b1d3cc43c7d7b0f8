/**
 The reference: AES as FIPS 197 states it, section by section, on the state array s[r, c],
 and the proofs that the datapath of the cores computes it.
 */
module Fips197 {
  import opened Gf256
  import opened SBoxTables
  import opened AesRounds
  import opened KeySchedule

  // ----- section 3.4: the state as a table of bytes

  function Row(w: Word, r: int): Byte {
    if r == 0 then w.b3 else if r == 1 then w.b2 else if r == 2 then w.b1 else w.b0
  }

  /** s[r, c]. */
  function At(s: Block, r: int, c: int): Byte {
    Row(if c == 0 then s.w0 else if c == 1 then s.w1 else if c == 2 then s.w2 else s.w3, r)
  }

  /** n mod 4, for n from 0 to 7. */
  function Wrap(n: int): int {
    if n >= 4 then n - 4 else n
  }

  function Column(f: (int, int) -> Byte, c: int): Word {
    Word(f(0, c), f(1, c), f(2, c), f(3, c))
  }

  /** The state whose entry [r, c] is f(r, c). */
  function State(f: (int, int) -> Byte): Block {
    Block(Column(f, 0), Column(f, 1), Column(f, 2), Column(f, 3))
  }

  // ----- section 5.1: the transformations of the cipher

  /** Section 5.1.1. */
  function SubBytes(s: Block): Block {
    State((r, c) => SBox(At(s, r, c)))
  }

  /** Section 5.1.2: s'[r, c] = s[r, (c + r) mod 4]. */
  function ShiftRows(s: Block): Block {
    State((r, c) => At(s, r, Wrap(c + r)))
  }

  /** Entry r of the product, modulo x^4 + 1, of column c and the polynomial
      p3 x^3 + p2 x^2 + p1 x + p0. */
  function ColumnTimes(p3: Byte, p2: Byte, p1: Byte, p0: Byte, s: Block, r: int, c: int): Byte {
    Sum(Times(p0, At(s, r, c)), Times(p3, At(s, Wrap(r + 1), c)),
        Times(p2, At(s, Wrap(r + 2), c)), Times(p1, At(s, Wrap(r + 3), c)))
  }

  /** Section 5.1.3. */
  function MixColumns(s: Block): Block {
    State((r, c) => ColumnTimes(0x03, 0x01, 0x01, 0x02, s, r, c))
  }

  /** Section 5.1.4: column c of round key n is word 4n + c of the expanded key. */
  function AddRoundKey(s: Block, w: int -> Word, n: nat): Block {
    State((r, c) => Xor(At(s, r, c), Row(w(4 * n + c), r)))
  }

  // ----- section 5.3: the transformations of the inverse cipher

  /** Section 5.3.1: s'[r, (c + r) mod 4] = s[r, c]. */
  function InvShiftRows(s: Block): Block {
    State((r, c) => At(s, r, Wrap(4 + c - r)))
  }

  /** Section 5.3.2. */
  function InvSubBytes(s: Block): Block {
    State((r, c) => InvSBox(At(s, r, c)))
  }

  /** Section 5.3.3. */
  function InvMixColumns(s: Block): Block {
    State((r, c) => ColumnTimes(0x0b, 0x0d, 0x09, 0x0e, s, r, c))
  }

  // ----- figures 5 and 12: the two ciphers, for any number nr of rounds

  function Rounds(s: Block, w: int -> Word, n: nat): Block {
    if n == 0 then AddRoundKey(s, w, 0)
    else AddRoundKey(MixColumns(ShiftRows(SubBytes(Rounds(s, w, n - 1)))), w, n)
  }

  function Cipher(s: Block, w: int -> Word, nr: nat): Block
    requires nr >= 1
  {
    AddRoundKey(ShiftRows(SubBytes(Rounds(s, w, nr - 1))), w, nr)
  }

  function InvRounds(s: Block, w: int -> Word, nr: nat, n: nat): Block
    requires n <= nr
  {
    if n == 0 then AddRoundKey(s, w, nr)
    else InvMixColumns(AddRoundKey(InvSubBytes(InvShiftRows(InvRounds(s, w, nr, n - 1))), w, nr - n))
  }

  function InvCipher(s: Block, w: int -> Word, nr: nat): Block
    requires nr >= 1
  {
    AddRoundKey(InvSubBytes(InvShiftRows(InvRounds(s, w, nr, nr - 1))), w, 0)
  }

  // ----- section 5.2: the key expansion, word by word

  function RotWord(w: Word): Word {
    Word(w.b2, w.b1, w.b0, w.b3)
  }

  /** x^n in GF(2^8). */
  function PowX(n: nat): Byte {
    if n == 0 then 0x01 else Times(0x02, PowX(n - 1))
  }

  function Rcon(j: nat): Word
    requires j >= 1
  {
    Word(PowX(j - 1), 0, 0, 0)
  }

  /** Word i of the expansion of a 128-bit key (figure 11 with Nk = 4). */
  function KeyWord(key: Block, i: int): Word {
    if i <= 0 then key.w0
    else if i == 1 then key.w1
    else if i == 2 then key.w2
    else if i == 3 then key.w3
    else
      var temp := KeyWord(key, i - 1);
      XorWord(KeyWord(key, i - 4), if i % 4 == 0 then XorWord(SubWord(RotWord(temp)), Rcon(i / 4)) else temp)
  }

  // ----- the datapath computes the reference, layer by layer

  lemma SubBytesMatches(s: Block)
    ensures AesRounds.SubBytes(s) == SubBytes(s)
  {
    hide SBox;
  }

  lemma InvSubBytesMatches(s: Block)
    ensures AesRounds.InvSubBytes(s) == InvSubBytes(s)
  {
    hide InvSBox;
  }

  lemma ShiftRowsMatches(s: Block)
    ensures AesRounds.ShiftRows(s) == ShiftRows(s)
  {
    var f := (r, c) => At(s, r, Wrap(c + r));
    assert Column(f, 0) == Word(At(s, 0, 0), At(s, 1, 1), At(s, 2, 2), At(s, 3, 3));
    assert Column(f, 1) == Word(At(s, 0, 1), At(s, 1, 2), At(s, 2, 3), At(s, 3, 0));
    assert Column(f, 2) == Word(At(s, 0, 2), At(s, 1, 3), At(s, 2, 0), At(s, 3, 1));
    assert Column(f, 3) == Word(At(s, 0, 3), At(s, 1, 0), At(s, 2, 1), At(s, 3, 2));
  }

  lemma InvShiftRowsMatches(s: Block)
    ensures AesRounds.InvShiftRows(s) == InvShiftRows(s)
  {
    var f := (r, c) => At(s, r, Wrap(4 + c - r));
    assert Wrap(4) == 0 && Wrap(5) == 1 && Wrap(6) == 2 && Wrap(7) == 3;
    assert Column(f, 0) == Word(At(s, 0, 0), At(s, 1, 3), At(s, 2, 2), At(s, 3, 1));
    assert Column(f, 1) == Word(At(s, 0, 1), At(s, 1, 0), At(s, 2, 3), At(s, 3, 2));
    assert Column(f, 2) == Word(At(s, 0, 2), At(s, 1, 1), At(s, 2, 0), At(s, 3, 3));
    assert Column(f, 3) == Word(At(s, 0, 3), At(s, 1, 2), At(s, 2, 1), At(s, 3, 0));
  }

  lemma TimesOne(b: Byte)
    ensures Times(0x01, b) == b
  {
  }

  lemma MixRowMatches(s: Block, r: int, c: int)
    requires 0 <= r < 4 && 0 <= c < 4
    ensures MixRow(At(s, r, c), At(s, Wrap(r + 1), c), At(s, Wrap(r + 2), c), At(s, Wrap(r + 3), c))
         == ColumnTimes(0x03, 0x01, 0x01, 0x02, s, r, c)
  {
    hide At, Times, Times3, XTime, Sum;
    MatrixConstants(At(s, r, c));
    MatrixConstants(At(s, Wrap(r + 1), c));
    TimesOne(At(s, Wrap(r + 2), c));
    TimesOne(At(s, Wrap(r + 3), c));
  }

  lemma InvMixRowMatches(s: Block, r: int, c: int)
    requires 0 <= r < 4 && 0 <= c < 4
    ensures InvMixRow(At(s, r, c), At(s, Wrap(r + 1), c), At(s, Wrap(r + 2), c), At(s, Wrap(r + 3), c))
         == ColumnTimes(0x0b, 0x0d, 0x09, 0x0e, s, r, c)
  {
    hide At, Times, Sum, PMul9, PMulB, PMulD, PMulE;
    InverseMatrixConstants'(At(s, r, c));
    InverseMatrixConstants(At(s, Wrap(r + 1), c));
    InverseMatrixConstants'(At(s, Wrap(r + 2), c));
    InverseMatrixConstants(At(s, Wrap(r + 3), c));
  }

  lemma MixColMatches(s: Block, c: int)
    requires 0 <= c < 4
    ensures MixCol(Column((r, c') => At(s, r, c'), c))
         == Column((r, c') => ColumnTimes(0x03, 0x01, 0x01, 0x02, s, r, c'), c)
  {
    hide At, MixCol, MixRow, ColumnTimes;
    MixColRows(Column((r, c') => At(s, r, c'), c));
    MixRowMatches(s, 0, c);
    MixRowMatches(s, 1, c);
    MixRowMatches(s, 2, c);
    MixRowMatches(s, 3, c);
  }

  lemma InvMixColMatches(s: Block, c: int)
    requires 0 <= c < 4
    ensures InvMixCol(Column((r, c') => At(s, r, c'), c))
         == Column((r, c') => ColumnTimes(0x0b, 0x0d, 0x09, 0x0e, s, r, c'), c)
  {
    hide At, InvMixCol, InvMixRow, ColumnTimes;
    InvMixColRows(Column((r, c') => At(s, r, c'), c));
    InvMixRowMatches(s, 0, c);
    InvMixRowMatches(s, 1, c);
    InvMixRowMatches(s, 2, c);
    InvMixRowMatches(s, 3, c);
  }

  lemma MixColumnsMatches(s: Block)
    ensures AesRounds.MixColumns(s) == MixColumns(s)
  {
    hide MixCol, ColumnTimes;
    MixColMatches(s, 0);
    MixColMatches(s, 1);
    MixColMatches(s, 2);
    MixColMatches(s, 3);
  }

  lemma InvMixColumnsMatches(s: Block)
    ensures AesRounds.InvMixColumns(s) == InvMixColumns(s)
  {
    hide InvMixCol, ColumnTimes;
    InvMixColMatches(s, 0);
    InvMixColMatches(s, 1);
    InvMixColMatches(s, 2);
    InvMixColMatches(s, 3);
  }

  /** The words w(4n) .. w(4n + 3) are round key n. */
  predicate Expands(w: int -> Word, ks: seq<Block>) {
    forall n :: 0 <= n < |ks| ==> ks[n] == KeyBlock(w, n)
  }

  function KeyBlock(w: int -> Word, n: nat): Block {
    Block(w(4 * n), w(4 * n + 1), w(4 * n + 2), w(4 * n + 3))
  }

  lemma AddRoundKeyMatches(s: Block, w: int -> Word, n: nat)
    ensures AddKey(s, KeyBlock(w, n)) == AddRoundKey(s, w, n)
  {
    hide Xor;
  }

  // ----- and so do the ciphers

  lemma {:induction false} RoundsMatch(x: Block, w: int -> Word, ks: seq<Block>, n: nat)
    requires Expands(w, ks) && n < |ks|
    ensures EncState(x, ks, n) == Rounds(x, w, n)
  {
    hide AddKey, AddRoundKey, KeyBlock, AesRounds.MixColumns, MixColumns, AesRounds.SubBytes, SubBytes,
      AesRounds.ShiftRows, ShiftRows;
    if n == 0 {
      AddRoundKeyMatches(x, w, 0);
    } else {
      RoundsMatch(x, w, ks, n - 1);
      var s := EncState(x, ks, n - 1);
      SubBytesMatches(s);
      ShiftRowsMatches(SubBytes(s));
      MixColumnsMatches(ShiftRows(SubBytes(s)));
      AddRoundKeyMatches(MixColumns(ShiftRows(SubBytes(s))), w, n);
    }
  }

  lemma EncryptMatches(x: Block, w: int -> Word, ks: seq<Block>)
    requires Expands(w, ks) && |ks| >= 2
    ensures Encrypt(x, ks) == Cipher(x, w, |ks| - 1)
  {
    hide AddKey, AddRoundKey, KeyBlock, AesRounds.SubBytes, SubBytes, AesRounds.ShiftRows, ShiftRows, EncState, Rounds;
    RoundsMatch(x, w, ks, |ks| - 2);
    var s := Rounds(x, w, |ks| - 2);
    SubBytesMatches(s);
    ShiftRowsMatches(SubBytes(s));
    AddRoundKeyMatches(ShiftRows(SubBytes(s)), w, |ks| - 1);
  }

  lemma {:induction false} InvRoundsMatch(y: Block, w: int -> Word, ks: seq<Block>, n: nat)
    requires Expands(w, ks) && n < |ks|
    ensures DecState(y, ks, n) == InvRounds(y, w, |ks| - 1, n)
  {
    hide AddKey, AddRoundKey, KeyBlock, AesRounds.InvMixColumns, InvMixColumns, AesRounds.InvSubBytes, InvSubBytes,
      AesRounds.InvShiftRows, InvShiftRows;
    if n == 0 {
      AddRoundKeyMatches(y, w, |ks| - 1);
    } else {
      InvRoundsMatch(y, w, ks, n - 1);
      var s := DecState(y, ks, n - 1);
      InvShiftRowsMatches(s);
      InvSubBytesMatches(InvShiftRows(s));
      var t := InvSubBytes(InvShiftRows(s));
      AddRoundKeyMatches(t, w, |ks| - 1 - n);
      InvMixColumnsMatches(AddRoundKey(t, w, |ks| - 1 - n));
    }
  }

  lemma DecryptMatches(y: Block, w: int -> Word, ks: seq<Block>)
    requires Expands(w, ks) && |ks| >= 2
    ensures Decrypt(y, ks) == InvCipher(y, w, |ks| - 1)
  {
    hide AddKey, AddRoundKey, KeyBlock, AesRounds.InvSubBytes, InvSubBytes, AesRounds.InvShiftRows, InvShiftRows,
      DecState, InvRounds;
    InvRoundsMatch(y, w, ks, |ks| - 2);
    var s := InvRounds(y, w, |ks| - 1, |ks| - 2);
    InvShiftRowsMatches(s);
    InvSubBytesMatches(InvShiftRows(s));
    AddRoundKeyMatches(InvSubBytes(InvShiftRows(s)), w, 0);
  }

  // ----- and the key expansion

  lemma {:induction false} FrconIsRcon(i: Nibble)
    requires i <= 9
    ensures Frcon(i) == Rcon(i + 1)
  {
    hide XTime, Times;
    if i > 0 {
      FrconIsRcon(i - 1);
      MatrixConstants(PowX(i - 1));
      XTimeOfFrcon(i - 1);
    }
  }

  lemma XTimeOfFrcon(i: Nibble)
    requires i <= 8
    ensures XTime(Frcon(i).b3) == Frcon(i + 1).b3
  {
  }

  lemma XorWordAssociates(a: Word, b: Word, c: Word)
    ensures XorWord(XorWord(a, b), c) == XorWord(a, XorWord(b, c))
    ensures XorWord(a, b) == XorWord(b, a)
  {
    hide Xor;
    XorAssociates(a.b3, b.b3, c.b3);
    XorAssociates(a.b2, b.b2, c.b2);
    XorAssociates(a.b1, b.b1, c.b1);
    XorAssociates(a.b0, b.b0, c.b0);
    XorCommutes(a.b3, b.b3);
    XorCommutes(a.b2, b.b2);
    XorCommutes(a.b1, b.b1);
    XorCommutes(a.b0, b.b0);
  }

  /** The unrolled update is the word recursion: each new word is the old one plus its new neighbour. */
  lemma NextKeyChains(w: Block, rcon: Word)
    ensures var n := NextKey(w, rcon);
      && n.w0 == XorWord(w.w0, XorWord(SubWord(RotWord(w.w3)), rcon))
      && n.w1 == XorWord(w.w1, n.w0)
      && n.w2 == XorWord(w.w2, n.w1)
      && n.w3 == XorWord(w.w3, n.w2)
  {
    hide XorWord, SBox;
    var a, b, c, d := w.w0, w.w1, w.w2, w.w3;
    var t := SubRotWord(d);
    XorWordAssociates(a, t, rcon);
    XorWordAssociates(XorWord(a, b), t, rcon);
    XorWordAssociates(XorWord(XorWord(a, c), b), t, rcon);
    XorWordAssociates(XorWord(XorWord(XorWord(a, d), c), b), t, rcon);
    var u := XorWord(t, rcon);
    var n0 := XorWord(a, u);
    // w1: (a + b) + u
    XorWordRotates(a, b, u);
    // w2: ((a + c) + b) + u
    XorWordRotates(XorWord(a, c), b, u);
    XorWordRotates(a, c, u);
    XorWordSwaps(b, c, n0);
    // w3: (((a + d) + c) + b) + u
    XorWordRotates(XorWord(XorWord(a, d), c), b, u);
    XorWordRotates(XorWord(a, d), c, u);
    XorWordRotates(a, d, u);
    XorWordSwaps(b, c, XorWord(d, n0));
    XorWordSwaps(b, d, n0);
    XorWordSwaps(c, d, XorWord(b, n0));
  }

  lemma XorWordRotates(a: Word, b: Word, t: Word)
    ensures XorWord(XorWord(a, b), t) == XorWord(b, XorWord(a, t))
  {
    hide XorWord;
    XorWordAssociates(a, b, t);
    XorWordAssociates(b, a, t);
  }

  lemma XorWordSwaps(a: Word, b: Word, t: Word)
    ensures XorWord(a, XorWord(b, t)) == XorWord(b, XorWord(a, t))
  {
    hide XorWord;
    XorWordAssociates(a, b, t);
    XorWordAssociates(b, a, t);
  }

  /** Round key r of the cores is made of words 4r .. 4r + 3 of the expanded key. */
  lemma {:induction false} RoundKeyIsKeyWords(key: Block, r: nat)
    requires r <= 10
    ensures RoundKey(key, r) == KeyBlock(i => KeyWord(key, i), r)
  {
    hide NextKey, Frcon, Rcon, XorWord, SubWord, RotWord;
    if r > 0 {
      RoundKeyIsKeyWords(key, r - 1);
      NextKeyChains(RoundKey(key, r - 1), Frcon(r - 1));
      FrconIsRcon(r - 1);
      var i := 4 * r;
      assert i / 4 == r && i % 4 == 0 && (i + 1) % 4 == 1 && (i + 2) % 4 == 2 && (i + 3) % 4 == 3;
      assert KeyWord(key, i) == XorWord(KeyWord(key, i - 4), XorWord(SubWord(RotWord(KeyWord(key, i - 1))), Rcon(r)));
      assert KeyWord(key, i + 1) == XorWord(KeyWord(key, i - 3), KeyWord(key, i));
      assert KeyWord(key, i + 2) == XorWord(KeyWord(key, i - 2), KeyWord(key, i + 1));
      assert KeyWord(key, i + 3) == XorWord(KeyWord(key, i - 1), KeyWord(key, i + 2));
    }
  }

  /** The cipher of the cores is AES-128. */
  lemma CipherIsAes128(key: Block, x: Block)
    ensures KeySchedule.Cipher(key, x) == Cipher(x, i => KeyWord(key, i), 10)
    ensures KeySchedule.InvCipher(key, x) == InvCipher(x, i => KeyWord(key, i), 10)
  {
    hide Encrypt, Decrypt, Cipher, InvCipher, KeyWord, RoundKey, KeyBlock;
    forall n | 0 <= n < 11
      ensures Schedule(key)[n] == KeyBlock(i => KeyWord(key, i), n)
    {
      RoundKeyIsKeyWords(key, n);
    }
    EncryptMatches(x, i => KeyWord(key, i), Schedule(key));
    DecryptMatches(x, i => KeyWord(key, i), Schedule(key));
  }
}
