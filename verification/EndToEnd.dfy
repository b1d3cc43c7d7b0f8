/** The cipher path and the decipher path one after the other. */
module EndToEnd {
  import opened AesRounds
  import opened AxisStream
  import KeySchedule
  import C = CipherPath
  import D = DecipherPath
  import AesFiles
  import Alignment
  import CFeed = CipherFeed
  import DFeed = DecipherFeed
  import Gf256

  /** A run of the cipher path from reset: two edges in reset, then the inputs. */
  function CipherRun(h: C.Hardware, i: C.Input, j: C.Input, ins: seq<C.Input>, depth: nat): C.Trace {
    C.Run(C.Start(C.HwStep(C.HwStep(h, i, depth), j, depth)), ins, depth)
  }

  function DecipherRun(h: D.Hardware, i: D.Input, j: D.Input, ins: seq<D.Input>, depth: nat): D.Trace {
    D.Run(D.Start(D.HwStep(D.HwStep(h, i, depth), j, depth)), ins, depth)
  }

  /** Every block of a finished cipher run was captured under this key. */
  predicate CipheredUnder(t: C.Trace, key: Block) {
    C.NothingPending(t.hw) && forall c :: c in t.captures ==> c.key == key
  }

  predicate DecipheredUnder(t: D.Trace, key: Block) {
    D.NothingPending(t.hw) && forall c :: c in t.captures ==> c.key == D.Captured(key)
  }

  /** What one path put out, the other took in. */
  predicate Passed(t: C.Trace, u: D.Trace) {
    |u.captures| == |t.pushes| && forall k :: 0 <= k < |t.pushes| ==> u.captures[k].block == t.pushes[k].beat
  }

  lemma CipherWords(h: C.Hardware, i: C.Input, j: C.Input, ins: seq<C.Input>, depth: nat, key: Block)
    requires !i.resetn && !j.resetn
    requires C.AllowedRun(C.Start(C.HwStep(C.HwStep(h, i, depth), j, depth)), ins, depth)
    requires CipheredUnder(CipherRun(h, i, j, ins, depth), key)
    ensures var t := CipherRun(h, i, j, ins, depth);
      && |t.pushes| == |t.captures|
      && (forall k :: 0 <= k < |t.pushes| ==>
            t.pushes[k].beat == Beat(KeySchedule.Cipher(key, t.captures[k].block.data), t.captures[k].block.last))
  {
    hide C.HwStep, C.Run, KeySchedule.Cipher, C.AllowedRun, C.NothingPending;
    C.CipherStream(h, i, j, ins, depth);
    var t := CipherRun(h, i, j, ins, depth);
    forall k | 0 <= k < |t.pushes|
      ensures t.pushes[k].beat == C.Expected(t.captures[k])
    {
      assert Pushed(t.pushes)[k] == C.ExpectedAll(t.captures)[k];
    }
  }

  lemma DecipherWords(h: D.Hardware, i: D.Input, j: D.Input, ins: seq<D.Input>, depth: nat, key: Block)
    requires !i.resetn && !j.resetn
    requires D.AllowedRun(D.Start(D.HwStep(D.HwStep(h, i, depth), j, depth)), ins, depth)
    requires DecipheredUnder(DecipherRun(h, i, j, ins, depth), key)
    ensures var t := DecipherRun(h, i, j, ins, depth);
      && |t.pushes| == |t.captures|
      && (forall k :: 0 <= k < |t.pushes| ==>
            t.pushes[k].beat == Beat(KeySchedule.InvCipher(key, t.captures[k].block.data), t.captures[k].block.last))
  {
    hide D.HwStep, D.Run, KeySchedule.InvCipher, Decrypt, KeySchedule.Schedule, D.AllowedRun, D.NothingPending;
    D.DecipherStream(h, i, j, ins, depth);
    var t := DecipherRun(h, i, j, ins, depth);
    forall k | 0 <= k < |t.pushes|
      ensures t.pushes[k].beat == D.Expected(t.captures[k])
    {
      assert Pushed(t.pushes)[k] == D.ExpectedAll(t.captures)[k];
    }
  }

  /** Blocks that go through the cipher path and then, under the same key, through the decipher
      path come out as they went in, TLAST included, whatever the timing of either run. */
  lemma HardwareRoundTrip(h: C.Hardware, i: C.Input, j: C.Input, ins: seq<C.Input>, depth: nat,
                          h': D.Hardware, i': D.Input, j': D.Input, ins': seq<D.Input>, depth': nat, key: Block)
    requires !i.resetn && !j.resetn && !i'.resetn && !j'.resetn
    requires C.AllowedRun(C.Start(C.HwStep(C.HwStep(h, i, depth), j, depth)), ins, depth)
    requires D.AllowedRun(D.Start(D.HwStep(D.HwStep(h', i', depth'), j', depth')), ins', depth')
    requires CipheredUnder(CipherRun(h, i, j, ins, depth), key)
    requires DecipheredUnder(DecipherRun(h', i', j', ins', depth'), key)
    requires Passed(CipherRun(h, i, j, ins, depth), DecipherRun(h', i', j', ins', depth'))
    ensures var t, u := CipherRun(h, i, j, ins, depth), DecipherRun(h', i', j', ins', depth');
      |u.pushes| == |t.captures| && forall k :: 0 <= k < |u.pushes| ==> u.pushes[k].beat == t.captures[k].block
  {
    hide C.HwStep, C.Run, D.HwStep, D.Run, KeySchedule.Cipher, KeySchedule.InvCipher, C.AllowedRun, D.AllowedRun,
      CipherRun, DecipherRun;
    CipherWords(h, i, j, ins, depth, key);
    DecipherWords(h', i', j', ins', depth', key);
    var t, u := CipherRun(h, i, j, ins, depth), DecipherRun(h', i', j', ins', depth');
    forall k | 0 <= k < |u.pushes|
      ensures u.pushes[k].beat == t.captures[k].block
    {
      KeySchedule.InvCipherUndoesCipher(key, t.captures[k].block.data);
    }
  }

  /** A file through the cipher path, and what comes out of it through the decipher path, each with
      its key in front, at any pace: if each source finds room and pauses where a beat follows a
      gap, the file comes back, followed by zeros. */
  lemma FileThroughHardware(t: C.Trace, ins: seq<C.Input>, depth: nat, t': D.Trace, ins': seq<D.Input>, depth': nat,
                            key: seq<Gf256.Byte>, file: seq<Gf256.Byte>)
    requires |key| == AesFiles.AES_KEY_WIDTH && |file| <= Alignment.SIZES - 16
    requires CFeed.Carries(t, ins, depth, AesFiles.ToBlock(key), AesFiles.SentBlocks(key, file))
    requires CFeed.Spaced(t, ins, depth)
    requires DFeed.Carries(t', ins', depth', AesFiles.ToBlock(key),
                           AesFiles.SentBlocks(key, AesFiles.EncryptedFile(key, file)))
    requires DFeed.Spaced(t', ins', depth')
    ensures AesFiles.Unblocks(CFeed.PushedSince(t, C.Run(t, ins, depth))) == AesFiles.EncryptedFile(key, file)
    ensures AesFiles.Unblocks(DFeed.PushedSince(t', D.Run(t', ins', depth')))
         == file + AesFiles.Zeros(AesFiles.TextSize(|file|) - |file|)
  {
    hide C.Run, D.Run, CFeed.Carries, CFeed.Spaced, DFeed.Carries, DFeed.Spaced;
    hide AesFiles.ToBlock, AesFiles.SentBlocks, AesFiles.EncryptedFile, AesFiles.DecryptedFile, AesFiles.Unblocks;
    CFeed.EncryptsFileIff(t, ins, depth, key, file);
    DFeed.DecryptsFileIff(t', ins', depth', key, AesFiles.EncryptedFile(key, file));
    AesFiles.FileRoundTrip(key, file);
  }

  /** The same for sources that offer at every other edge: the first pauses once after its first
      block, for which there is room, and the second pauses once after the key. */
  lemma PacedFileThroughHardware(t: C.Trace, ins: seq<C.Input>, end: nat, depth: nat,
                                 t': D.Trace, ins': seq<D.Input>, end': nat, depth': nat,
                                 key: seq<Gf256.Byte>, file: seq<Gf256.Byte>)
    requires |key| == AesFiles.AES_KEY_WIDTH && |file| <= Alignment.SIZES - 16
    requires CFeed.Carries(t, ins, depth, AesFiles.ToBlock(key), AesFiles.SentBlocks(key, file))
    requires CFeed.Paced(ins, end) && CFeed.Room(C.Run(t, ins[..1], depth).hw, ins[1]) && ins[2].offer.None?
    requires DFeed.Carries(t', ins', depth', AesFiles.ToBlock(key),
                           AesFiles.SentBlocks(key, AesFiles.EncryptedFile(key, file)))
    requires DFeed.Paced(ins', end') && ins'[1].offer.None?
    ensures AesFiles.Unblocks(DFeed.PushedSince(t', D.Run(t', ins', depth')))
         == file + AesFiles.Zeros(AesFiles.TextSize(|file|) - |file|)
  {
    CFeed.SpacedIffPauses(t, ins, end, depth);
    DFeed.SpacedIffPauses(t', ins', end', depth');
    hide C.Run, D.Run, CFeed.Carries, CFeed.Spaced, CFeed.Room, DFeed.Carries, DFeed.Spaced;
    hide AesFiles.ToBlock, AesFiles.SentBlocks, AesFiles.EncryptedFile, AesFiles.DecryptedFile, AesFiles.Unblocks;
    FileThroughHardware(t, ins, depth, t', ins', depth', key, file);
  }
}
