/**
 The key-expansion datapath: the unrolled update of the four words, the round constants,
 and the schedule of eleven round keys they generate.
 */
module KeySchedule {
  import opened Gf256
  import opened SBoxTables
  import opened AesRounds

  /** A 4-bit counter register. */
  type Nibble = x: int | 0 <= x < 16

  /** The four S-boxes on `tmp_w`, wired one byte round. */
  function SubRotWord(w: Word): Word {
    Word(SBox(w.b2), SBox(w.b1), SBox(w.b0), SBox(w.b3))
  }

  /** The next value of w[0..3], each word written out from the old ones. */
  function NextKey(w: Block, rcon: Word): Block {
    var t := SubRotWord(w.w3);
    Block(XorWord(XorWord(w.w0, t), rcon),
          XorWord(XorWord(XorWord(w.w0, w.w1), t), rcon),
          XorWord(XorWord(XorWord(XorWord(w.w0, w.w2), w.w1), t), rcon),
          XorWord(XorWord(XorWord(XorWord(XorWord(w.w0, w.w3), w.w2), w.w1), t), rcon))
  }

  /** The round constant of the 4-bit counter value i. */
  function Frcon(i: Nibble): Word {
    match i
    case 0 => Word(0x01, 0, 0, 0)
    case 1 => Word(0x02, 0, 0, 0)
    case 2 => Word(0x04, 0, 0, 0)
    case 3 => Word(0x08, 0, 0, 0)
    case 4 => Word(0x10, 0, 0, 0)
    case 5 => Word(0x20, 0, 0, 0)
    case 6 => Word(0x40, 0, 0, 0)
    case 7 => Word(0x80, 0, 0, 0)
    case 8 => Word(0x1b, 0, 0, 0)
    case 9 => Word(0x36, 0, 0, 0)
    case _ => ZERO_WORD
  }

  /** Round key i, as successive updates of the key produce it. */
  function RoundKey(key: Block, i: nat): Block
    requires i <= 16
  {
    if i == 0 then key else NextKey(RoundKey(key, i - 1), Frcon(i - 1))
  }

  /** The eleven round keys an AES-128 core works with. */
  type RoundKeys = ks: seq<Block> | |ks| == 11 witness seq(11, _ => ZERO_BLOCK)

  function Schedule(key: Block): (ks: RoundKeys)
    ensures forall i :: 0 <= i < 11 ==> ks[i] == RoundKey(key, i)
  {
    seq(11, i requires 0 <= i < 11 => RoundKey(key, i))
  }

  function Cipher(key: Block, x: Block): Block {
    Encrypt(x, Schedule(key))
  }

  function InvCipher(key: Block, y: Block): Block {
    Decrypt(y, Schedule(key))
  }

  lemma InvCipherUndoesCipher(key: Block, x: Block)
    ensures InvCipher(key, Cipher(key, x)) == x
    ensures Cipher(key, InvCipher(key, x)) == x
  {
    hide Encrypt, Decrypt, Schedule;
    DecryptUndoesEncrypt(x, Schedule(key));
    EncryptUndoesDecrypt(x, Schedule(key));
  }
}
