/**
 What `aes.cpp` sends to the engine for a file and what comes back: the key, the file and zero
 padding, cut into blocks, through the cipher and through the inverse cipher.
 */
module AesFiles {
  import opened Gf256
  import opened AesRounds
  import opened KeySchedule
  import opened Alignment
  import Fips197

  const AES_TEXT_WIDTH: nat := 16
  const AES_KEY_WIDTH: nat := 16

  type Bytes = seq<Byte>

  /** The size of a file in whole blocks. */
  function TextSize(size: Size): (a: Size)
    ensures a % AES_TEXT_WIDTH == 0
    ensures size <= SIZES - AES_TEXT_WIDTH ==> size <= a < size + AES_TEXT_WIDTH
  {
    assert Pow2(4) == 16;
    AlignedDropsRemainder(size, 4);
    AlignedSize(size, AES_TEXT_WIDTH)
  }

  // ----- the transmit buffer

  function Zeros(n: nat): Bytes {
    seq(n, _ => 0)
  }

  /** What the transmit buffer holds: at most the aligned size of the file, zeros after its end. */
  function TxContent(key: Bytes, content: Bytes, aligned: nat): (bs: Bytes)
    ensures |bs| == |key| + aligned
  {
    var taken := if |content| <= aligned then content else content[..aligned];
    key + taken + Zeros(aligned - |taken|)
  }

  /** Key, then file, then zeros. */
  lemma TxContentHolds(key: Bytes, content: Bytes, aligned: nat, k: nat)
    requires k < |key| + aligned
    ensures TxContent(key, content, aligned)[k]
         == if k < |key| then key[k] else if k - |key| < |content| then content[k - |key|] else 0
  {
  }

  // ----- bytes and blocks

  /** Byte k of sixteen travels on bits 8k+7 to 8k of the stream. */
  function ToBlock(b: Bytes): Block
    requires |b| == 16
  {
    Block(Word(b[15], b[14], b[13], b[12]), Word(b[11], b[10], b[9], b[8]),
          Word(b[7], b[6], b[5], b[4]), Word(b[3], b[2], b[1], b[0]))
  }

  function FromBlock(x: Block): (b: Bytes)
    ensures |b| == 16
  {
    [x.w3.b0, x.w3.b1, x.w3.b2, x.w3.b3, x.w2.b0, x.w2.b1, x.w2.b2, x.w2.b3,
     x.w1.b0, x.w1.b1, x.w1.b2, x.w1.b3, x.w0.b0, x.w0.b1, x.w0.b2, x.w0.b3]
  }

  /** The number on the 32 wires of a word, and on the 128 wires of the stream, word w0 on top. */
  function WordNumber(w: Word): nat {
    w.b0 as int + 0x100 * (w.b1 as int + 0x100 * (w.b2 as int + 0x100 * (w.b3 as int)))
  }

  function Number(x: Block): nat {
    WordNumber(x.w3) + 0x1_0000_0000 * (WordNumber(x.w2) + 0x1_0000_0000 * (WordNumber(x.w1)
    + 0x1_0000_0000 * WordNumber(x.w0)))
  }

  function LittleEndian(b: Bytes): nat {
    if b == [] then 0 else b[0] as int + 0x100 * LittleEndian(b[1..])
  }

  lemma LittleEndianWord(b: Bytes)
    requires |b| >= 4
    ensures LittleEndian(b) == WordNumber(Word(b[3], b[2], b[1], b[0])) + 0x1_0000_0000 * LittleEndian(b[4..])
  {
    assert b[1..][1..] == b[2..] && b[2..][1..] == b[3..] && b[3..][1..] == b[4..];
    assert LittleEndian(b[2..]) == b[2] as int + 0x100 * (b[3] as int + 0x100 * LittleEndian(b[4..]));
  }

  /** The block on the stream is the sixteen bytes in memory as a little-endian number. */
  lemma ToBlockIsLittleEndian(b: Bytes)
    requires |b| == 16
    ensures Number(ToBlock(b)) == LittleEndian(b)
  {
    assert b[4..][4..] == b[8..] && b[8..][4..] == b[12..] && b[12..][4..] == [] && LittleEndian([]) == 0;
    hide WordNumber, LittleEndian;
    LittleEndianWord(b);
    LittleEndianWord(b[4..]);
    LittleEndianWord(b[8..]);
    LittleEndianWord(b[12..]);
  }

  /** In the order of section 3.4 of FIPS 197 the bytes of a block run the other way. */
  lemma ToBlockReverses(b: Bytes, r: nat, c: nat)
    requires |b| == 16 && r < 4 && c < 4
    ensures Fips197.At(ToBlock(b), r, c) == b[15 - (r + 4 * c)]
  {
    WordReverses(b[4 * (3 - c)..4 * (4 - c)], r);
    hide Fips197.Row;
    assert c == 0 || c == 1 || c == 2 || c == 3;
  }

  lemma WordReverses(b: Bytes, r: nat)
    requires |b| == 4 && r < 4
    ensures Fips197.Row(Word(b[3], b[2], b[1], b[0]), r) == b[3 - r]
  {
  }

  function Blocks(bs: Bytes): (xs: seq<Block>)
    requires |bs| % 16 == 0
    ensures 16 * |xs| == |bs|
  {
    if bs == [] then [] else [ToBlock(bs[..16])] + Blocks(bs[16..])
  }

  function Unblocks(xs: seq<Block>): (bs: Bytes)
    ensures |bs| == 16 * |xs|
  {
    if xs == [] then [] else FromBlock(xs[0]) + Unblocks(xs[1..])
  }

  lemma {:induction false} BlocksOfUnblocks(xs: seq<Block>)
    ensures Blocks(Unblocks(xs)) == xs
  {
    if xs != [] {
      BlocksOfUnblocks(xs[1..]);
      assert Unblocks(xs)[..16] == FromBlock(xs[0]);
      assert Unblocks(xs)[16..] == Unblocks(xs[1..]);
    }
  }

  lemma FromBlockOfToBlock(b: Bytes)
    requires |b| == 16
    ensures FromBlock(ToBlock(b)) == b
  {
  }

  lemma {:induction false} UnblocksOfBlocks(bs: Bytes)
    requires |bs| % 16 == 0
    ensures Unblocks(Blocks(bs)) == bs
  {
    hide FromBlock, ToBlock;
    if bs != [] {
      UnblocksOfBlocks(bs[16..]);
      FromBlockOfToBlock(bs[..16]);
      assert bs == bs[..16] + bs[16..];
    }
  }

  // ----- through the engine

  function Ciphered(key: Block, xs: seq<Block>): (ys: seq<Block>)
    ensures |ys| == |xs|
  {
    seq(|xs|, i requires 0 <= i < |xs| => Cipher(key, xs[i]))
  }

  function Deciphered(key: Block, ys: seq<Block>): (xs: seq<Block>)
    ensures |xs| == |ys|
  {
    seq(|ys|, i requires 0 <= i < |ys| => InvCipher(key, ys[i]))
  }

  /** What the two paths return for a stream whose first word is taken as the key. */
  function Encrypted(stream: Bytes): (bs: Bytes)
    requires |stream| >= AES_KEY_WIDTH && |stream| % 16 == 0
    ensures |bs| == |stream| - AES_KEY_WIDTH
  {
    Unblocks(Ciphered(ToBlock(stream[..16]), Blocks(stream[16..])))
  }

  function Decrypted(stream: Bytes): (bs: Bytes)
    requires |stream| >= AES_KEY_WIDTH && |stream| % 16 == 0
    ensures |bs| == |stream| - AES_KEY_WIDTH
  {
    Unblocks(Deciphered(ToBlock(stream[..16]), Blocks(stream[16..])))
  }

  /** The words that follow the key in the stream for a file. */
  function SentBlocks(key: Bytes, file: Bytes): seq<Block>
    requires |key| == AES_KEY_WIDTH && |file| < SIZES
  {
    Blocks(TxContent(key, file, TextSize(|file|))[16..])
  }

  /** The file that an encryption of `file` writes, and the file that a decryption of it writes. */
  function EncryptedFile(key: Bytes, file: Bytes): (bs: Bytes)
    requires |key| == AES_KEY_WIDTH && |file| < SIZES
    ensures |bs| == TextSize(|file|)
  {
    Encrypted(TxContent(key, file, TextSize(|file|)))
  }

  function DecryptedFile(key: Bytes, file: Bytes): (bs: Bytes)
    requires |key| == AES_KEY_WIDTH && |file| < SIZES
    ensures |bs| == TextSize(|file|)
  {
    Decrypted(TxContent(key, file, TextSize(|file|)))
  }

  lemma DecipheredOfCiphered(key: Block, xs: seq<Block>)
    ensures Deciphered(key, Ciphered(key, xs)) == xs
  {
    hide Cipher, InvCipher;
    forall i | 0 <= i < |xs|
      ensures Deciphered(key, Ciphered(key, xs))[i] == xs[i]
    {
      InvCipherUndoesCipher(key, xs[i]);
    }
  }

  /** Encrypting a file and decrypting the result under the same key gives the file followed by
      zeros up to the aligned size. */
  lemma FileRoundTrip(key: Bytes, file: Bytes)
    requires |key| == AES_KEY_WIDTH && |file| <= SIZES - 16
    ensures DecryptedFile(key, EncryptedFile(key, file)) == file + Zeros(TextSize(|file|) - |file|)
  {
    hide ToBlock, FromBlock, Cipher, InvCipher, Blocks, Unblocks, Ciphered, Deciphered, AlignedSize;
    hide TextSize;
    var a := TextSize(|file|);
    var padded := file + Zeros(a - |file|);
    var k := ToBlock(key);
    var sent := TxContent(key, file, a);
    assert sent[..16] == key && sent[16..] == padded;
    var ys := Ciphered(k, Blocks(padded));
    var cipherFile := Unblocks(ys);
    assert EncryptedFile(key, file) == cipherFile;
    assert TextSize(a) == a;
    var back := TxContent(key, cipherFile, a);
    assert back[..16] == key && back[16..] == cipherFile;
    BlocksOfUnblocks(ys);
    DecipheredOfCiphered(k, Blocks(padded));
    UnblocksOfBlocks(padded);
  }
}
