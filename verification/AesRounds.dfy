/**
 The combinational datapath of the two cores on 128-bit values, and the two ciphers over a
 list of round keys of any length.

 A 128-bit value is four 32-bit words, the most significant first. The sixteen state
 registers sa00..sa33 are the same sixteen bytes: saRC is byte R (from the top) of word C.
 */
module AesRounds {
  import opened Gf256
  import opened SBoxTables

  datatype Word = Word(b3: Byte, b2: Byte, b1: Byte, b0: Byte)

  datatype Block = Block(w0: Word, w1: Word, w2: Word, w3: Word)

  const ZERO_WORD := Word(0, 0, 0, 0)
  const ZERO_BLOCK := Block(ZERO_WORD, ZERO_WORD, ZERO_WORD, ZERO_WORD)

  function XorWord(a: Word, b: Word): Word {
    Word(Xor(a.b3, b.b3), Xor(a.b2, b.b2), Xor(a.b1, b.b1), Xor(a.b0, b.b0))
  }

  function AddKey(s: Block, k: Block): Block {
    Block(XorWord(s.w0, k.w0), XorWord(s.w1, k.w1), XorWord(s.w2, k.w2), XorWord(s.w3, k.w3))
  }

  function SubWord(w: Word): Word {
    Word(SBox(w.b3), SBox(w.b2), SBox(w.b1), SBox(w.b0))
  }

  function InvSubWord(w: Word): Word {
    Word(InvSBox(w.b3), InvSBox(w.b2), InvSBox(w.b1), InvSBox(w.b0))
  }

  function SubBytes(s: Block): Block {
    Block(SubWord(s.w0), SubWord(s.w1), SubWord(s.w2), SubWord(s.w3))
  }

  function InvSubBytes(s: Block): Block {
    Block(InvSubWord(s.w0), InvSubWord(s.w1), InvSubWord(s.w2), InvSubWord(s.w3))
  }

  /** Row R moves R columns to the left. */
  function ShiftRows(s: Block): Block {
    Block(Word(s.w0.b3, s.w1.b2, s.w2.b1, s.w3.b0), Word(s.w1.b3, s.w2.b2, s.w3.b1, s.w0.b0),
          Word(s.w2.b3, s.w3.b2, s.w0.b1, s.w1.b0), Word(s.w3.b3, s.w0.b2, s.w1.b1, s.w2.b0))
  }

  /** Row R moves R columns to the right. */
  function InvShiftRows(s: Block): Block {
    Block(Word(s.w0.b3, s.w3.b2, s.w2.b1, s.w1.b0), Word(s.w1.b3, s.w0.b2, s.w3.b1, s.w2.b0),
          Word(s.w2.b3, s.w1.b2, s.w0.b1, s.w3.b0), Word(s.w3.b3, s.w2.b2, s.w1.b1, s.w0.b0))
  }

  /** `mix_col`, sum by sum as the source writes it. */
  function MixCol(c: Word): Word {
    var s0, s1, s2, s3 := c.b3, c.b2, c.b1, c.b0;
    Word(Sum5(XTime(s0), XTime(s1), s1, s2, s3),
         Sum5(s0, XTime(s1), XTime(s2), s2, s3),
         Sum5(s0, s1, XTime(s2), XTime(s3), s3),
         Sum5(XTime(s0), s0, s1, s2, XTime(s3)))
  }

  /** `inv_mix_col`. */
  function InvMixCol(c: Word): Word {
    var s0, s1, s2, s3 := c.b3, c.b2, c.b1, c.b0;
    Word(Sum(PMulE(s0), PMulB(s1), PMulD(s2), PMul9(s3)),
         Sum(PMul9(s0), PMulE(s1), PMulB(s2), PMulD(s3)),
         Sum(PMulD(s0), PMul9(s1), PMulE(s2), PMulB(s3)),
         Sum(PMulB(s0), PMulD(s1), PMul9(s2), PMulE(s3)))
  }

  function MixColumns(s: Block): Block {
    Block(MixCol(s.w0), MixCol(s.w1), MixCol(s.w2), MixCol(s.w3))
  }

  function InvMixColumns(s: Block): Block {
    Block(InvMixCol(s.w0), InvMixCol(s.w1), InvMixCol(s.w2), InvMixCol(s.w3))
  }

  // ----- rounds

  /** SubBytes then ShiftRows: the part of a round before MixColumns. */
  function Scramble(s: Block): Block {
    ShiftRows(SubBytes(s))
  }

  /** InvShiftRows then InvSubBytes. */
  function Unscramble(s: Block): Block {
    InvSubBytes(InvShiftRows(s))
  }

  /** The `*_next` wires of the forward core. */
  function Round(s: Block, k: Block): Block {
    AddKey(MixColumns(Scramble(s)), k)
  }

  /** What the forward core latches into `text_out`. */
  function LastRound(s: Block, k: Block): Block {
    AddKey(Scramble(s), k)
  }

  /** The `*_next` wires of the inverse core. */
  function InvRound(s: Block, k: Block): Block {
    InvMixColumns(AddKey(Unscramble(s), k))
  }

  /** What the inverse core latches into `text_out`. */
  function InvLastRound(s: Block, k: Block): Block {
    AddKey(Unscramble(s), k)
  }

  // ----- the ciphers over any list of at least two round keys

  /** The state after the initial key addition and j full rounds. */
  function EncState(x: Block, ks: seq<Block>, j: nat): Block
    requires j < |ks|
  {
    if j == 0 then AddKey(x, ks[0]) else Round(EncState(x, ks, j - 1), ks[j])
  }

  function Encrypt(x: Block, ks: seq<Block>): Block
    requires |ks| >= 2
  {
    LastRound(EncState(x, ks, |ks| - 2), ks[|ks| - 1])
  }

  /** The inverse state after the addition of the last key and j full inverse rounds. */
  function DecState(y: Block, ks: seq<Block>, j: nat): Block
    requires j < |ks|
  {
    if j == 0 then AddKey(y, ks[|ks| - 1]) else InvRound(DecState(y, ks, j - 1), ks[|ks| - 1 - j])
  }

  function Decrypt(y: Block, ks: seq<Block>): Block
    requires |ks| >= 2
  {
    InvLastRound(DecState(y, ks, |ks| - 2), ks[0])
  }

  // ----- each layer is undone by its inverse

  lemma MixColRows(c: Word)
    ensures MixCol(c) == Word(MixRow(c.b3, c.b2, c.b1, c.b0), MixRow(c.b2, c.b1, c.b0, c.b3),
                              MixRow(c.b1, c.b0, c.b3, c.b2), MixRow(c.b0, c.b3, c.b2, c.b1))
  {
    hide XTime, Xor, Sum, Sum5;
    var s0, s1, s2, s3 := c.b3, c.b2, c.b1, c.b0;
    RegroupSum5(XTime(s0), XTime(s1), s1, s2, s3);
    RegroupSum5(XTime(s1), XTime(s2), s2, s3, s0);
    RegroupSum5(XTime(s2), XTime(s3), s3, s0, s1);
    RegroupSum5(XTime(s3), XTime(s0), s0, s1, s2);
  }

  lemma InvMixColRows(c: Word)
    ensures InvMixCol(c) == Word(InvMixRow(c.b3, c.b2, c.b1, c.b0), InvMixRow(c.b2, c.b1, c.b0, c.b3),
                                 InvMixRow(c.b1, c.b0, c.b3, c.b2), InvMixRow(c.b0, c.b3, c.b2, c.b1))
  {
    hide Sum, PMul9, PMulB, PMulD, PMulE;
    var s0, s1, s2, s3 := c.b3, c.b2, c.b1, c.b0;
    RotateSum(PMul9(s0), PMulE(s1), PMulB(s2), PMulD(s3));
    RotateSum(PMulD(s0), PMul9(s1), PMulE(s2), PMulB(s3));
    RotateSum(PMul9(s1), PMulE(s2), PMulB(s3), PMulD(s0));
    RotateSum(PMulE(s3), PMulB(s0), PMulD(s1), PMul9(s2));
  }

  lemma InvMixColOfMixCol(c: Word)
    ensures InvMixCol(MixCol(c)) == c
    ensures MixCol(InvMixCol(c)) == c
  {
    hide MixCol, InvMixCol, MixRow, InvMixRow;
    MixColRows(c);
    InvMixColRows(MixCol(c));
    InvMixRowOfMixRow(c.b3, c.b2, c.b1, c.b0);
    InvMixRowOfMixRow(c.b2, c.b1, c.b0, c.b3);
    InvMixRowOfMixRow(c.b1, c.b0, c.b3, c.b2);
    InvMixRowOfMixRow(c.b0, c.b3, c.b2, c.b1);
    InvMixColRows(c);
    MixColRows(InvMixCol(c));
    MixRowOfInvMixRow(c.b3, c.b2, c.b1, c.b0);
    MixRowOfInvMixRow(c.b2, c.b1, c.b0, c.b3);
    MixRowOfInvMixRow(c.b1, c.b0, c.b3, c.b2);
    MixRowOfInvMixRow(c.b0, c.b3, c.b2, c.b1);
  }

  lemma InvMixColumnsOfMixColumns(s: Block)
    ensures InvMixColumns(MixColumns(s)) == s
    ensures MixColumns(InvMixColumns(s)) == s
  {
    hide MixCol, InvMixCol;
    InvMixColOfMixCol(s.w0);
    InvMixColOfMixCol(s.w1);
    InvMixColOfMixCol(s.w2);
    InvMixColOfMixCol(s.w3);
  }

  lemma XorWordCancels(w: Word, k: Word)
    ensures XorWord(XorWord(w, k), k) == w
  {
    hide Xor;
    XorCancels(w.b3, k.b3);
    XorCancels(w.b2, k.b2);
    XorCancels(w.b1, k.b1);
    XorCancels(w.b0, k.b0);
  }

  lemma AddKeyCancels(s: Block, k: Block)
    ensures AddKey(AddKey(s, k), k) == s
  {
    hide XorWord;
    XorWordCancels(s.w0, k.w0);
    XorWordCancels(s.w1, k.w1);
    XorWordCancels(s.w2, k.w2);
    XorWordCancels(s.w3, k.w3);
  }

  lemma InvSubWordOfSubWord(w: Word)
    ensures InvSubWord(SubWord(w)) == w
    ensures SubWord(InvSubWord(w)) == w
  {
    hide SBox, InvSBox;
    InvSBoxOfSBox(w.b3); InvSBoxOfSBox(w.b2); InvSBoxOfSBox(w.b1); InvSBoxOfSBox(w.b0);
    SBoxOfInvSBox(w.b3); SBoxOfInvSBox(w.b2); SBoxOfInvSBox(w.b1); SBoxOfInvSBox(w.b0);
  }

  lemma InvSubBytesOfSubBytes(s: Block)
    ensures InvSubBytes(SubBytes(s)) == s
    ensures SubBytes(InvSubBytes(s)) == s
  {
    hide SubWord, InvSubWord;
    InvSubWordOfSubWord(s.w0);
    InvSubWordOfSubWord(s.w1);
    InvSubWordOfSubWord(s.w2);
    InvSubWordOfSubWord(s.w3);
  }

  lemma InvShiftRowsOfShiftRows(s: Block)
    ensures InvShiftRows(ShiftRows(s)) == s
    ensures ShiftRows(InvShiftRows(s)) == s
  {
  }

  lemma UnscrambleOfScramble(s: Block)
    ensures Unscramble(Scramble(s)) == s
    ensures Scramble(Unscramble(s)) == s
  {
    hide ShiftRows, InvShiftRows, SubBytes, InvSubBytes;
    InvShiftRowsOfShiftRows(SubBytes(s));
    InvSubBytesOfSubBytes(s);
    InvSubBytesOfSubBytes(InvShiftRows(s));
    InvShiftRowsOfShiftRows(s);
  }

  /** One inverse round of the inverse core takes back one round of the forward core, although
      the two add their round key at different places. */
  lemma InvRoundUndoesRound(s: Block, k: Block)
    ensures InvRound(Scramble(Round(s, k)), k) == Scramble(s)
    ensures Round(Unscramble(InvRound(s, k)), k) == Unscramble(s)
  {
    hide AddKey, MixColumns, InvMixColumns, Scramble, Unscramble;
    UnscrambleOfScramble(Round(s, k));
    AddKeyCancels(MixColumns(Scramble(s)), k);
    InvMixColumnsOfMixColumns(Scramble(s));
    UnscrambleOfScramble(InvRound(s, k));
    InvMixColumnsOfMixColumns(AddKey(Unscramble(s), k));
    AddKeyCancels(Unscramble(s), k);
  }

  // ----- decryption undoes encryption

  /** Going backwards, the inverse core sees every state of the encryption, scrambled. */
  lemma {:induction false} DecStateMeetsEncState(x: Block, ks: seq<Block>, j: nat)
    requires |ks| >= 2 && j < |ks| - 1
    ensures DecState(Encrypt(x, ks), ks, j) == Scramble(EncState(x, ks, |ks| - 2 - j))
  {
    hide AddKey, Round, InvRound, Scramble;
    var n := |ks| - 1;
    if j == 0 {
      AddKeyCancels(Scramble(EncState(x, ks, n - 1)), ks[n]);
    } else {
      DecStateMeetsEncState(x, ks, j - 1);
      InvRoundUndoesRound(EncState(x, ks, n - 1 - j), ks[n - j]);
    }
  }

  lemma DecryptUndoesEncrypt(x: Block, ks: seq<Block>)
    requires |ks| >= 2
    ensures Decrypt(Encrypt(x, ks), ks) == x
  {
    hide AddKey, Encrypt, DecState, Scramble, Unscramble;
    DecStateMeetsEncState(x, ks, |ks| - 2);
    UnscrambleOfScramble(EncState(x, ks, 0));
    AddKeyCancels(x, ks[0]);
  }

  lemma {:induction false} EncStateMeetsDecState(y: Block, ks: seq<Block>, j: nat)
    requires |ks| >= 2 && j < |ks| - 1
    ensures EncState(Decrypt(y, ks), ks, j) == Unscramble(DecState(y, ks, |ks| - 2 - j))
  {
    hide AddKey, Round, InvRound, Unscramble;
    if j == 0 {
      AddKeyCancels(Unscramble(DecState(y, ks, |ks| - 2)), ks[0]);
    } else {
      EncStateMeetsDecState(y, ks, j - 1);
      InvRoundUndoesRound(DecState(y, ks, |ks| - 2 - j), ks[j]);
    }
  }

  lemma EncryptUndoesDecrypt(y: Block, ks: seq<Block>)
    requires |ks| >= 2
    ensures Encrypt(Decrypt(y, ks), ks) == y
  {
    hide AddKey, Decrypt, EncState, Scramble, Unscramble;
    var n := |ks| - 1;
    EncStateMeetsDecState(y, ks, n - 1);
    UnscrambleOfScramble(DecState(y, ks, 0));
    AddKeyCancels(y, ks[n]);
  }
}
