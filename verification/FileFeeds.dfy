/**
 A file through the cipher path: what the software offers to the stream, and what comes out of the
 FIFO when some of it is acknowledged without being taken.
 */
module CipherFeed {
  import opened AesRounds
  import opened AxisStream
  import opened CipherPath
  import Core = CipherCore
  import Gf256
  import KeySchedule
  import AesFiles
  import Alignment
  import Sink = CipherSink
  import Source = AxisSource

  /** The books after one more edge. */
  function BookedAt(l: Ledger, h: Hardware, i: Input): Ledger {
    Booked(l, h.sink.tready, Sink.Takes(h.sink, SinkWires(h, i)), i.offer)
  }

  /** The books of the stream into the path along a run. */
  function Book(t: Trace, ins: seq<Input>, depth: nat): Ledger {
    if ins == [] then NOTHING_YET
    else
      var n := |ins| - 1;
      BookedAt(Book(t, ins[..n], depth), Run(t, ins[..n], depth).hw, ins[n])
  }

  predicate SlipsAt(h: Hardware, l: Ledger, i: Input) {
    Slips(l, h.sink.tready, Sink.Takes(h.sink, SinkWires(h, i)), i.offer)
  }

  /** At no edge does TREADY acknowledge a fresh beat that the sink does not take. */
  predicate NeverSlips(t: Trace, ins: seq<Input>, depth: nat) {
    forall n :: 0 <= n < |ins| ==> !SlipsAt(Run(t, ins[..n], depth).hw, Book(t, ins[..n], depth), ins[n])
  }

  /** No key is requested, and every beat stays on offer until it is acknowledged. */
  predicate Fed(t: Trace, ins: seq<Input>, depth: nat) {
    forall n :: 0 <= n < |ins| ==> !ins[n].ctrl && Keeps(Book(t, ins[..n], depth), ins[n].offer)
  }

  /** The first beat taken since t is the key, the others are the blocks captured under it. */
  predicate Feeding(t: Trace, u: Trace, l: Ledger) {
    && (l.held.Some? && u.hw.sink.tready ==> u.hw.sink.state == Sink.S1)
    && |u.captures| >= |t.captures|
    && if !u.hw.sink.setupDone then
         Sink.AwaitsKey(u.hw.sink) && l == NOTHING_YET && |u.captures| == |t.captures|
       else
         && l.taken != [] && l.acked != [] && l.taken[0] == l.acked[0] && u.key == l.taken[0].data
         && |u.captures| == |t.captures| + |l.taken| - 1
         && (forall k :: |t.captures| <= k < |u.captures| ==>
               u.captures[k].key == u.key && u.captures[k].block == l.taken[k - |t.captures| + 1])
  }

  lemma FeedingKept(t: Trace, u: Trace, l: Ledger, i: Input, depth: nat)
    requires Feeding(t, u, l) && i.resetn && !i.ctrl && Keeps(l, i.offer)
    ensures Feeding(t, Step(u, i, depth), BookedAt(l, u.hw, i))
    ensures !(l.held.Some? && u.hw.sink.tready && Sink.Takes(u.hw.sink, SinkWires(u.hw, i)))
  {
    hide NextFifo, Enters, CoreWires, Ready, Core.Step, Source.Step;
  }

  lemma NeverSlipsGrows(t: Trace, ins: seq<Input>, n: nat, depth: nat)
    requires |ins| == n + 1
    ensures NeverSlips(t, ins, depth) <==>
      && NeverSlips(t, ins[..n], depth)
      && !SlipsAt(Run(t, ins[..n], depth).hw, Book(t, ins[..n], depth), ins[n])
  {
    hide Run, Book, SlipsAt;
    forall k | 0 <= k < n
      ensures ins[..n][..k] == ins[..k]
    {
    }
  }

  lemma {:induction false} FeedingAlong(t: Trace, ins: seq<Input>, depth: nat)
    requires Sink.AwaitsKey(t.hw.sink) && AllowedRun(t, ins, depth) && Fed(t, ins, depth)
    ensures Feeding(t, Run(t, ins, depth), Book(t, ins, depth))
    ensures var l, ready := Book(t, ins, depth), Run(t, ins, depth).hw.sink.tready;
      if NeverSlips(t, ins, depth) then Balanced(l, ready) else Short(l, ready)
  {
    if ins != [] {
      hide HwStep, BookedAt, Feeding, Fed, AllowedRun, NeverSlips, SlipsAt;
      var n := |ins| - 1;
      FedSoFar(t, ins, n, depth);
      FeedingAlong(t, ins[..n], depth);
      NeverSlipsGrows(t, ins, n, depth);
      FeedingMoves(t, Run(t, ins[..n], depth), Book(t, ins[..n], depth), ins[n], depth);
    }
  }

  lemma FedSoFar(t: Trace, ins: seq<Input>, n: nat, depth: nat)
    requires AllowedRun(t, ins, depth) && Fed(t, ins, depth) && |ins| == n + 1
    ensures AllowedRun(t, ins[..n], depth) && Fed(t, ins[..n], depth)
    ensures ins[n].resetn && !ins[n].ctrl && Keeps(Book(t, ins[..n], depth), ins[n].offer)
  {
    hide Run, Book;
    AllowedPrefix(t, ins, n, depth);
    forall k | 0 <= k < n
      ensures ins[..n][..k] == ins[..k]
    {
    }
  }

  lemma FeedingMoves(t: Trace, u: Trace, l: Ledger, i: Input, depth: nat)
    requires Feeding(t, u, l) && i.resetn && !i.ctrl && Keeps(l, i.offer)
    ensures var u', l' := Step(u, i, depth), BookedAt(l, u.hw, i);
      && Feeding(t, u', l')
      && (Short(l, u.hw.sink.tready) ==> Short(l', u'.hw.sink.tready))
      && (Balanced(l, u.hw.sink.tready) ==>
            if SlipsAt(u.hw, l, i) then Short(l', u'.hw.sink.tready) else Balanced(l', u'.hw.sink.tready))
  {
    FeedingKept(t, u, l, i, depth);
    if i.offer.Some? && !u.hw.sink.tready {
      Sink.ReadyFollowsTaking(u.hw.sink, SinkWires(u.hw, i));
    }
    hide Feeding, Sink.Takes, Sink.Step, NextFifo, Enters, CoreWires, Core.Step, Source.Step, Short, Balanced, Slips;
    SlipsAddUp(l, u.hw.sink.tready, Sink.Takes(u.hw.sink, SinkWires(u.hw, i)), i.offer,
               Step(u, i, depth).hw.sink.tready);
  }

  lemma BookGrows(t: Trace, ins: seq<Input>, n: nat, depth: nat)
    requires n < |ins|
    ensures Run(t, ins[..n + 1], depth) == Step(Run(t, ins[..n], depth), ins[n], depth)
    ensures Book(t, ins[..n + 1], depth) == BookedAt(Book(t, ins[..n], depth), Run(t, ins[..n], depth).hw, ins[n])
  {
    hide Step, BookedAt;
    assert ins[..n + 1][..n] == ins[..n];
  }

  // ----- where a source has to pause

  /** The path can take another block. */
  predicate Room(h: Hardware, i: Input) {
    !SinkWires(h, i).busy
  }

  /** After this edge TREADY is high with no beat on offer: it takes the key, or the sink is free
      with room behind it and the source pauses. */
  predicate Gap(h: Hardware, i: Input) {
    h.sink.state == Sink.S0 && if h.sink.setupDone then Room(h, i) && i.offer.None? else i.offer.Some?
  }

  /** Edge n follows a gap. */
  predicate AfterGap(t: Trace, ins: seq<Input>, n: nat, depth: nat)
    requires n <= |ins|
  {
    n > 0 && Gap(Run(t, ins[..n - 1], depth).hw, ins[n - 1])
  }

  /** At the edge before n a beat was offered after a gap, and there was room for it. */
  predicate AfterTaking(t: Trace, ins: seq<Input>, n: nat, depth: nat)
    requires n <= |ins|
  {
    && n > 0 && AfterGap(t, ins, n - 1, depth)
    && ins[n - 1].offer.Some? && Room(Run(t, ins[..n - 1], depth).hw, ins[n - 1])
  }

  /** A beat offered right after a gap finds room, and the source pauses after it. */
  predicate Spaced(t: Trace, ins: seq<Input>, depth: nat) {
    forall n :: 0 <= n < |ins| && AfterGap(t, ins, n, depth) && ins[n].offer.Some? ==>
      Room(Run(t, ins[..n], depth).hw, ins[n]) && (n + 1 < |ins| ==> ins[n + 1].offer.None?)
  }

  /** TREADY is high in S0 after a gap, and in S1 for a beat that has been taken, which is on offer
      still unless it came after a gap. */
  predicate Tracked(r: Sink.Regs, l: Ledger, gap: bool, taking: bool) {
    && (gap ==> r.state == Sink.S0) && (taking ==> r.state == Sink.S1)
    && if !r.setupDone then Sink.AwaitsKey(r) && l == NOTHING_YET && !gap
       else (r.tready && l.held.None? <==> gap || taking) && (r.tready && l.held.Some? ==> r.state == Sink.S1)
  }

  lemma TrackedMoves(t: Trace, l: Ledger, i: Input, gap: bool, taking: bool, depth: nat)
    requires Tracked(t.hw.sink, l, gap, taking) && i.resetn && !i.ctrl && Keeps(l, i.offer)
    ensures Tracked(Step(t, i, depth).hw.sink, BookedAt(l, t.hw, i),
                    Gap(t.hw, i), gap && i.offer.Some? && Room(t.hw, i))
    ensures SlipsAt(t.hw, l, i) <==> i.offer.Some? && (taking || (gap && !Room(t.hw, i)))
  {
    hide Core.Step, Source.Step, NextFifo, Enters, CoreWires, Ready;
  }

  lemma FedAt(t: Trace, ins: seq<Input>, n: nat, depth: nat)
    requires AllowedRun(t, ins, depth) && Fed(t, ins, depth) && n < |ins|
    ensures ins[n].resetn && !ins[n].ctrl && Keeps(Book(t, ins[..n], depth), ins[n].offer)
  {
    hide Run, Book, NothingPending;
    assert Allowed(Run(t, ins[..n], depth).hw, ins[n]);
  }

  lemma {:induction false} TrackedAlong(t: Trace, ins: seq<Input>, n: nat, depth: nat)
    requires Sink.AwaitsKey(t.hw.sink) && AllowedRun(t, ins, depth) && Fed(t, ins, depth) && n <= |ins|
    ensures Tracked(Run(t, ins[..n], depth).hw.sink, Book(t, ins[..n], depth),
                    AfterGap(t, ins, n, depth), AfterTaking(t, ins, n, depth))
  {
    hide Step, BookedAt, Gap, Room;
    if n == 0 {
      assert ins[..0] == [] && Run(t, [], depth) == t;
    } else {
      hide Run, Book, Tracked, Sink.AwaitsKey, AllowedRun, Fed;
      TrackedAlong(t, ins, n - 1, depth);
      BookGrows(t, ins, n - 1, depth);
      FedAt(t, ins, n - 1, depth);
      TrackedMoves(Run(t, ins[..n - 1], depth), Book(t, ins[..n - 1], depth), ins[n - 1],
                   AfterGap(t, ins, n - 1, depth), AfterTaking(t, ins, n - 1, depth), depth);
    }
  }

  lemma SlipsAtIff(t: Trace, ins: seq<Input>, n: nat, depth: nat)
    requires Sink.AwaitsKey(t.hw.sink) && AllowedRun(t, ins, depth) && Fed(t, ins, depth) && n < |ins|
    ensures var u := Run(t, ins[..n], depth);
      SlipsAt(u.hw, Book(t, ins[..n], depth), ins[n]) <==>
        && ins[n].offer.Some?
        && (AfterTaking(t, ins, n, depth) || (AfterGap(t, ins, n, depth) && !Room(u.hw, ins[n])))
  {
    hide Run, Book, Step, BookedAt, Tracked, Gap, Room, Sink.AwaitsKey, SlipsAt, AfterGap, AfterTaking, AllowedRun, Fed;
    TrackedAlong(t, ins, n, depth);
    FedAt(t, ins, n, depth);
    TrackedMoves(Run(t, ins[..n], depth), Book(t, ins[..n], depth), ins[n],
                 AfterGap(t, ins, n, depth), AfterTaking(t, ins, n, depth), depth);
  }

  /** However the source paces its beats and whatever the back-pressure: no beat slips if and only
      if a beat offered right after a gap finds room and the source pauses after it. */
  lemma NeverSlipsIffSpaced(t: Trace, ins: seq<Input>, depth: nat)
    requires Sink.AwaitsKey(t.hw.sink) && AllowedRun(t, ins, depth) && Fed(t, ins, depth)
    ensures NeverSlips(t, ins, depth) <==> Spaced(t, ins, depth)
  {
    hide Run, Book, Room, Sink.AwaitsKey, SlipsAt, AfterGap, AllowedRun, Fed;
    forall n | 0 <= n < |ins|
      ensures SlipsAt(Run(t, ins[..n], depth).hw, Book(t, ins[..n], depth), ins[n]) <==>
        && ins[n].offer.Some?
        && (AfterTaking(t, ins, n, depth) || (AfterGap(t, ins, n, depth) && !Room(Run(t, ins[..n], depth).hw, ins[n])))
    {
      SlipsAtIff(t, ins, n, depth);
    }
    if n :| 0 <= n < |ins| && ins[n].offer.Some? && AfterTaking(t, ins, n, depth) {
      assert AfterGap(t, ins, n - 1, depth);
    }
    forall n | 0 <= n < |ins| - 1 && AfterGap(t, ins, n, depth) && ins[n].offer.Some? && ins[n + 1].offer.Some?
      ensures !NeverSlips(t, ins, depth)
    {
      if Room(Run(t, ins[..n], depth).hw, ins[n]) {
        assert AfterTaking(t, ins, n + 1, depth);
      }
    }
  }

  /** A source that goes on offering after the first block slips, whatever else happens. */
  lemma ContinuousSourceSlips(t: Trace, ins: seq<Input>, depth: nat)
    requires Sink.AwaitsKey(t.hw.sink) && AllowedRun(t, ins, depth) && Fed(t, ins, depth) && |ins| >= 3
    requires ins[0].offer.Some? && ins[1].offer.Some? && ins[2].offer.Some?
    ensures !NeverSlips(t, ins, depth)
  {
    NeverSlipsIffSpaced(t, ins, depth);
    assert ins[..0] == [] && Run(t, [], depth) == t;
    assert AfterGap(t, ins, 1, depth);
  }

  /** Offers for the key and for the first block, and then, after the edge that follows, at every
      edge until the source has nothing more to send. */
  predicate Paced(ins: seq<Input>, end: nat) {
    && 3 <= end <= |ins|
    && ins[0].offer.Some? && ins[1].offer.Some?
    && (forall n :: 3 <= n < end ==> ins[n].offer.Some?)
    && (forall n :: end <= n < |ins| ==> ins[n].offer.None?)
  }

  lemma SetupStays(t: Trace, i: Input, depth: nat)
    requires i.resetn && !i.ctrl
    requires t.hw.sink.setupDone || (t.hw.sink.state == Sink.S0 && i.offer.Some?)
    ensures Step(t, i, depth).hw.sink.setupDone
  {
    hide Core.Step, Source.Step, NextFifo, Enters, CoreWires, Ready;
  }

  lemma {:induction false} SetupAlong(t: Trace, ins: seq<Input>, n: nat, depth: nat)
    requires Sink.AwaitsKey(t.hw.sink) && AllowedRun(t, ins, depth) && Fed(t, ins, depth)
    requires 1 <= n <= |ins| && ins[0].offer.Some?
    ensures Run(t, ins[..n], depth).hw.sink.setupDone
  {
    hide Step, Book, AllowedRun, Fed;
    BookGrows(t, ins, n - 1, depth);
    FedAt(t, ins, n - 1, depth);
    if n == 1 {
      assert ins[..0] == [] && Run(t, [], depth) == t;
    } else {
      SetupAlong(t, ins, n - 1, depth);
    }
    SetupStays(Run(t, ins[..n - 1], depth), ins[n - 1], depth);
  }

  /** The first block is captured if there is room for it. */
  lemma KeyThenBlock(t: Trace, i: Input, j: Input, depth: nat)
    requires Sink.AwaitsKey(t.hw.sink) && i.resetn && j.resetn && !i.ctrl && !j.ctrl && i.offer.Some? && j.offer.Some?
    ensures Gap(t.hw, i)
    ensures var u := Step(t, i, depth); Room(u.hw, j) ==> Step(u, j, depth).hw.sink.state == Sink.S1
  {
    hide Core.Step, Source.Step, NextFifo, Enters, CoreWires, Ready;
  }

  /** For such a source it comes down to room for the first block when it is offered, and to a pause
      right after it. */
  lemma SpacedIffPauses(t: Trace, ins: seq<Input>, end: nat, depth: nat)
    requires Sink.AwaitsKey(t.hw.sink) && AllowedRun(t, ins, depth) && Fed(t, ins, depth) && Paced(ins, end)
    ensures Spaced(t, ins, depth) <==> Room(Run(t, ins[..1], depth).hw, ins[1]) && ins[2].offer.None?
  {
    hide Step, Book, BookedAt, Room, Gap, Sink.AwaitsKey, AllowedRun, Fed;
    assert ins[..0] == [] && Run(t, [], depth) == t;
    BookGrows(t, ins, 0, depth);
    BookGrows(t, ins, 1, depth);
    FedAt(t, ins, 0, depth);
    FedAt(t, ins, 1, depth);
    hide Run;
    KeyThenBlock(t, ins[0], ins[1], depth);
    assert AfterGap(t, ins, 1, depth);
    if Room(Run(t, ins[..1], depth).hw, ins[1]) && ins[2].offer.None? {
      forall n | 2 <= n < |ins| && ins[n].offer.Some?
        ensures !AfterGap(t, ins, n, depth)
      {
        SetupAlong(t, ins, n - 1, depth);
        NoGap(Run(t, ins[..n - 1], depth).hw, ins[n - 1]);
      }
    }
  }

  lemma NoGap(h: Hardware, i: Input)
    requires h.sink.setupDone && (i.offer.Some? || h.sink.state == Sink.S1)
    ensures !Gap(h, i)
  {
  }

  // ----- the file

  function DataOf(bs: seq<Beat>): (xs: seq<Block>)
    ensures |xs| == |bs|
  {
    seq(|bs|, k requires 0 <= k < |bs| => bs[k].data)
  }

  /** The words that entered the FIFO between two points of a run. */
  function PushedSince(t: Trace, u: Trace): seq<Block> {
    if |t.pushes| <= |u.pushes| then DataOf(Pushed(u.pushes[|t.pushes|..])) else []
  }

  /** The words pushed since t are the ciphers of the blocks taken after the key. */
  lemma PushedIsCiphered(t: Trace, u: Trace, l: Ledger, depth: nat)
    requires Inv(t, depth) && Inv(u, depth) && NothingPending(t.hw) && NothingPending(u.hw)
    requires Feeding(t, u, l) && l.taken != []
    ensures PushedSince(t, u) == AesFiles.Ciphered(l.taken[0].data, DataOf(l.taken[1..]))
  {
    hide CoreOk, SourceOk, KeySchedule.Cipher, Sink.AwaitsKey;
    assert Pushed(t.pushes) == ExpectedAll(t.captures) && Pushed(u.pushes) == ExpectedAll(u.captures);
    forall k | 0 <= k < |u.pushes| - |t.pushes|
      ensures PushedSince(t, u)[k] == KeySchedule.Cipher(l.taken[0].data, l.taken[1..][k].data)
    {
      assert Pushed(u.pushes)[|t.pushes| + k] == ExpectedAll(u.captures)[|t.captures| + k];
    }
  }

  /** From a reachable state that awaits a key to one with nothing pending, the stream acknowledges
      the key and then these blocks. */
  predicate Carries(t: Trace, ins: seq<Input>, depth: nat, key: Block, xs: seq<Block>) {
    && Inv(t, depth) && NothingPending(t.hw) && Sink.AwaitsKey(t.hw.sink)
    && AllowedRun(t, ins, depth) && Fed(t, ins, depth) && NothingPending(Run(t, ins, depth).hw)
    && DataOf(Book(t, ins, depth).acked) == [key] + xs
  }

  /** A file offered at any pace and under any back-pressure, all of it acknowledged: what enters the
      FIFO is the encrypted file if and only if a beat offered right after a gap finds room and the
      source pauses after it. */
  lemma EncryptsFileIff(t: Trace, ins: seq<Input>, depth: nat, key: seq<Gf256.Byte>, file: seq<Gf256.Byte>)
    requires |key| == AesFiles.AES_KEY_WIDTH && |file| < Alignment.SIZES
    requires Carries(t, ins, depth, AesFiles.ToBlock(key), AesFiles.SentBlocks(key, file))
    ensures AesFiles.Unblocks(PushedSince(t, Run(t, ins, depth))) == AesFiles.EncryptedFile(key, file)
       <==> Spaced(t, ins, depth)
  {
    hide HwStep, CoreOk, SourceOk, StreamOk, Run, Book, Fed, AllowedRun, NeverSlips, Spaced, KeySchedule.Cipher,
      AesFiles.ToBlock, AesFiles.Blocks, AesFiles.Unblocks;
    var u, l := Run(t, ins, depth), Book(t, ins, depth);
    var k, xs := AesFiles.ToBlock(key), AesFiles.SentBlocks(key, file);
    InvAlong(t, ins, depth);
    FeedingAlong(t, ins, depth);
    assert DataOf(l.acked)[0] == k;
    PushedIsCiphered(t, u, l, depth);
    EncryptedIs(key, file);
    NeverSlipsIffSpaced(t, ins, depth);
    if NeverSlips(t, ins, depth) {
      assert l.taken == l.acked;
      assert DataOf(l.taken[1..]) == DataOf(l.acked)[1..] == xs;
    } else {
      assert |l.taken[1..]| < |xs|;
    }
  }

  /** With offers at every edge but perhaps the one after the first block: the file comes out encrypted if
      and only if there is room for the first block when it is offered and the source does pause
      right after it. */
  lemma EncryptsPacedFileIff(t: Trace, ins: seq<Input>, end: nat, depth: nat,
                             key: seq<Gf256.Byte>, file: seq<Gf256.Byte>)
    requires |key| == AesFiles.AES_KEY_WIDTH && |file| < Alignment.SIZES
    requires Carries(t, ins, depth, AesFiles.ToBlock(key), AesFiles.SentBlocks(key, file)) && Paced(ins, end)
    ensures AesFiles.Unblocks(PushedSince(t, Run(t, ins, depth))) == AesFiles.EncryptedFile(key, file)
       <==> Room(Run(t, ins[..1], depth).hw, ins[1]) && ins[2].offer.None?
  {
    hide Run, Inv, NothingPending, AllowedRun, Fed, Spaced, Room, Sink.AwaitsKey, AesFiles.Unblocks;
    EncryptsFileIff(t, ins, depth, key, file);
    SpacedIffPauses(t, ins, end, depth);
  }

  lemma EncryptedIs(key: seq<Gf256.Byte>, file: seq<Gf256.Byte>)
    requires |key| == AesFiles.AES_KEY_WIDTH && |file| < Alignment.SIZES
    ensures AesFiles.EncryptedFile(key, file)
         == AesFiles.Unblocks(AesFiles.Ciphered(AesFiles.ToBlock(key), AesFiles.SentBlocks(key, file)))
  {
    hide KeySchedule.Cipher, AesFiles.ToBlock, AesFiles.Unblocks, AesFiles.Blocks;
    var sent := AesFiles.TxContent(key, file, AesFiles.TextSize(|file|));
    assert sent[..16] == key;
  }
}

/**
 The same for a file through the decipher path.
 */
module DecipherFeed {
  import opened AesRounds
  import opened AxisStream
  import opened DecipherPath
  import Core = InvCipherCore
  import Gf256
  import KeySchedule
  import AesFiles
  import Alignment
  import Sink = DecipherSink
  import Source = AxisSource

  /** The books after one more edge. */
  function BookedAt(l: Ledger, h: Hardware, i: Input): Ledger {
    Booked(l, h.sink.tready, Sink.Takes(h.sink, SinkWires(h, i)), i.offer)
  }

  /** The books of the stream into the path along a run. */
  function Book(t: Trace, ins: seq<Input>, depth: nat): Ledger {
    if ins == [] then NOTHING_YET
    else
      var n := |ins| - 1;
      BookedAt(Book(t, ins[..n], depth), Run(t, ins[..n], depth).hw, ins[n])
  }

  predicate SlipsAt(h: Hardware, l: Ledger, i: Input) {
    Slips(l, h.sink.tready, Sink.Takes(h.sink, SinkWires(h, i)), i.offer)
  }

  /** At no edge does TREADY acknowledge a fresh beat that the sink does not take. */
  predicate NeverSlips(t: Trace, ins: seq<Input>, depth: nat) {
    forall n :: 0 <= n < |ins| ==> !SlipsAt(Run(t, ins[..n], depth).hw, Book(t, ins[..n], depth), ins[n])
  }

  /** No key is requested, and every beat stays on offer until it is acknowledged. */
  predicate Fed(t: Trace, ins: seq<Input>, depth: nat) {
    forall n :: 0 <= n < |ins| ==> !ins[n].ctrl && Keeps(Book(t, ins[..n], depth), ins[n].offer)
  }

  /** The first beat taken since t is the key, the others are the blocks captured under it. */
  predicate Feeding(t: Trace, u: Trace, l: Ledger) {
    && (l.held.Some? && u.hw.sink.tready ==> u.hw.sink.state == Sink.S1)
    && |u.captures| >= |t.captures|
    && if !u.hw.sink.setupDone then
         Sink.AwaitsKey(u.hw.sink) && l == NOTHING_YET && |u.captures| == |t.captures|
       else
         && l.taken != [] && l.acked != [] && l.taken[0] == l.acked[0] && u.key == Captured(l.taken[0].data)
         && |u.captures| == |t.captures| + |l.taken| - 1
         && (forall k :: |t.captures| <= k < |u.captures| ==>
               u.captures[k].key == u.key && u.captures[k].block == l.taken[k - |t.captures| + 1])
  }

  lemma FeedingKept(t: Trace, u: Trace, l: Ledger, i: Input, depth: nat)
    requires Feeding(t, u, l) && i.resetn && !i.ctrl && Keeps(l, i.offer)
    ensures Feeding(t, Step(u, i, depth), BookedAt(l, u.hw, i))
    ensures !(l.held.Some? && u.hw.sink.tready && Sink.Takes(u.hw.sink, SinkWires(u.hw, i)))
  {
    hide NextFifo, Enters, CoreWires, Ready, Core.Step, Source.Step, KeySchedule.Schedule;
  }

  lemma NeverSlipsGrows(t: Trace, ins: seq<Input>, n: nat, depth: nat)
    requires |ins| == n + 1
    ensures NeverSlips(t, ins, depth) <==>
      && NeverSlips(t, ins[..n], depth)
      && !SlipsAt(Run(t, ins[..n], depth).hw, Book(t, ins[..n], depth), ins[n])
  {
    hide Run, Book, SlipsAt;
    forall k | 0 <= k < n
      ensures ins[..n][..k] == ins[..k]
    {
    }
  }

  lemma {:induction false} FeedingAlong(t: Trace, ins: seq<Input>, depth: nat)
    requires Sink.AwaitsKey(t.hw.sink) && AllowedRun(t, ins, depth) && Fed(t, ins, depth)
    ensures Feeding(t, Run(t, ins, depth), Book(t, ins, depth))
    ensures var l, ready := Book(t, ins, depth), Run(t, ins, depth).hw.sink.tready;
      if NeverSlips(t, ins, depth) then Balanced(l, ready) else Short(l, ready)
  {
    if ins != [] {
      hide HwStep, BookedAt, Feeding, Fed, AllowedRun, NeverSlips, SlipsAt;
      var n := |ins| - 1;
      FedSoFar(t, ins, n, depth);
      FeedingAlong(t, ins[..n], depth);
      NeverSlipsGrows(t, ins, n, depth);
      FeedingMoves(t, Run(t, ins[..n], depth), Book(t, ins[..n], depth), ins[n], depth);
    }
  }

  lemma FedSoFar(t: Trace, ins: seq<Input>, n: nat, depth: nat)
    requires AllowedRun(t, ins, depth) && Fed(t, ins, depth) && |ins| == n + 1
    ensures AllowedRun(t, ins[..n], depth) && Fed(t, ins[..n], depth)
    ensures ins[n].resetn && !ins[n].ctrl && Keeps(Book(t, ins[..n], depth), ins[n].offer)
  {
    hide Run, Book;
    AllowedPrefix(t, ins, n, depth);
    forall k | 0 <= k < n
      ensures ins[..n][..k] == ins[..k]
    {
    }
  }

  lemma FeedingMoves(t: Trace, u: Trace, l: Ledger, i: Input, depth: nat)
    requires Feeding(t, u, l) && i.resetn && !i.ctrl && Keeps(l, i.offer)
    ensures var u', l' := Step(u, i, depth), BookedAt(l, u.hw, i);
      && Feeding(t, u', l')
      && (Short(l, u.hw.sink.tready) ==> Short(l', u'.hw.sink.tready))
      && (Balanced(l, u.hw.sink.tready) ==>
            if SlipsAt(u.hw, l, i) then Short(l', u'.hw.sink.tready) else Balanced(l', u'.hw.sink.tready))
  {
    FeedingKept(t, u, l, i, depth);
    if i.offer.Some? && !u.hw.sink.tready {
      Sink.ReadyFollowsTaking(u.hw.sink, SinkWires(u.hw, i));
    }
    hide Feeding, Sink.Takes, Sink.Step, NextFifo, Enters, CoreWires, Core.Step, Source.Step, Short, Balanced, Slips;
    SlipsAddUp(l, u.hw.sink.tready, Sink.Takes(u.hw.sink, SinkWires(u.hw, i)), i.offer,
               Step(u, i, depth).hw.sink.tready);
  }

  lemma BookGrows(t: Trace, ins: seq<Input>, n: nat, depth: nat)
    requires n < |ins|
    ensures Run(t, ins[..n + 1], depth) == Step(Run(t, ins[..n], depth), ins[n], depth)
    ensures Book(t, ins[..n + 1], depth) == BookedAt(Book(t, ins[..n], depth), Run(t, ins[..n], depth).hw, ins[n])
  {
    hide Step, BookedAt;
    assert ins[..n + 1][..n] == ins[..n];
  }

  // ----- where a source has to pause

  /** The path can take another block: the sink is not waiting for the key buffer to fill. */
  predicate Room(h: Hardware, i: Input) {
    h.sink.state != Sink.S2 && !SinkWires(h, i).busy
  }

  /** After this edge TREADY is high with no beat on offer: it takes the key, or the sink is free
      with room behind it and the source pauses. */
  predicate Gap(h: Hardware, i: Input) {
    h.sink.state == Sink.S0 && if h.sink.setupDone then Room(h, i) && i.offer.None? else i.offer.Some?
  }

  /** Edge n follows a gap. */
  predicate AfterGap(t: Trace, ins: seq<Input>, n: nat, depth: nat)
    requires n <= |ins|
  {
    n > 0 && Gap(Run(t, ins[..n - 1], depth).hw, ins[n - 1])
  }

  /** At the edge before n a beat was offered after a gap, and there was room for it. */
  predicate AfterTaking(t: Trace, ins: seq<Input>, n: nat, depth: nat)
    requires n <= |ins|
  {
    && n > 0 && AfterGap(t, ins, n - 1, depth)
    && ins[n - 1].offer.Some? && Room(Run(t, ins[..n - 1], depth).hw, ins[n - 1])
  }

  /** A beat offered right after a gap finds room, and the source pauses after it. */
  predicate Spaced(t: Trace, ins: seq<Input>, depth: nat) {
    forall n :: 0 <= n < |ins| && AfterGap(t, ins, n, depth) && ins[n].offer.Some? ==>
      Room(Run(t, ins[..n], depth).hw, ins[n]) && (n + 1 < |ins| ==> ins[n + 1].offer.None?)
  }

  /** TREADY is high in S0 or S2 after a gap, and in S1 for a beat that has been taken, which is on
      offer still unless it came after a gap. */
  predicate Tracked(r: Sink.Regs, l: Ledger, gap: bool, taking: bool) {
    && (gap ==> r.state != Sink.S1) && (taking ==> r.state == Sink.S1)
    && if !r.setupDone then Sink.AwaitsKey(r) && l == NOTHING_YET && !gap
       else (r.tready && l.held.None? <==> gap || taking) && (r.tready && l.held.Some? ==> r.state == Sink.S1)
  }

  lemma TrackedMoves(t: Trace, l: Ledger, i: Input, gap: bool, taking: bool, depth: nat)
    requires Tracked(t.hw.sink, l, gap, taking) && i.resetn && !i.ctrl && Keeps(l, i.offer)
    ensures Tracked(Step(t, i, depth).hw.sink, BookedAt(l, t.hw, i),
                    Gap(t.hw, i), gap && i.offer.Some? && Room(t.hw, i))
    ensures SlipsAt(t.hw, l, i) <==> i.offer.Some? && (taking || (gap && !Room(t.hw, i)))
  {
    hide Core.Step, Source.Step, NextFifo, Enters, CoreWires, Ready, KeySchedule.Schedule;
  }

  lemma FedAt(t: Trace, ins: seq<Input>, n: nat, depth: nat)
    requires AllowedRun(t, ins, depth) && Fed(t, ins, depth) && n < |ins|
    ensures ins[n].resetn && !ins[n].ctrl && Keeps(Book(t, ins[..n], depth), ins[n].offer)
  {
    hide Run, Book, NothingPending;
    assert Allowed(Run(t, ins[..n], depth).hw, ins[n]);
  }

  lemma {:induction false} TrackedAlong(t: Trace, ins: seq<Input>, n: nat, depth: nat)
    requires Sink.AwaitsKey(t.hw.sink) && AllowedRun(t, ins, depth) && Fed(t, ins, depth) && n <= |ins|
    ensures Tracked(Run(t, ins[..n], depth).hw.sink, Book(t, ins[..n], depth),
                    AfterGap(t, ins, n, depth), AfterTaking(t, ins, n, depth))
  {
    hide Step, BookedAt, Gap, Room;
    if n == 0 {
      assert ins[..0] == [] && Run(t, [], depth) == t;
    } else {
      hide Run, Book, Tracked, Sink.AwaitsKey, AllowedRun, Fed;
      TrackedAlong(t, ins, n - 1, depth);
      BookGrows(t, ins, n - 1, depth);
      FedAt(t, ins, n - 1, depth);
      TrackedMoves(Run(t, ins[..n - 1], depth), Book(t, ins[..n - 1], depth), ins[n - 1],
                   AfterGap(t, ins, n - 1, depth), AfterTaking(t, ins, n - 1, depth), depth);
    }
  }

  lemma SlipsAtIff(t: Trace, ins: seq<Input>, n: nat, depth: nat)
    requires Sink.AwaitsKey(t.hw.sink) && AllowedRun(t, ins, depth) && Fed(t, ins, depth) && n < |ins|
    ensures var u := Run(t, ins[..n], depth);
      SlipsAt(u.hw, Book(t, ins[..n], depth), ins[n]) <==>
        && ins[n].offer.Some?
        && (AfterTaking(t, ins, n, depth) || (AfterGap(t, ins, n, depth) && !Room(u.hw, ins[n])))
  {
    hide Run, Book, Step, BookedAt, Tracked, Gap, Room, Sink.AwaitsKey, SlipsAt, AfterGap, AfterTaking, AllowedRun, Fed;
    TrackedAlong(t, ins, n, depth);
    FedAt(t, ins, n, depth);
    TrackedMoves(Run(t, ins[..n], depth), Book(t, ins[..n], depth), ins[n],
                 AfterGap(t, ins, n, depth), AfterTaking(t, ins, n, depth), depth);
  }

  /** However the source paces its beats and whatever the back-pressure: no beat slips if and only
      if a beat offered right after a gap finds room and the source pauses after it. */
  lemma NeverSlipsIffSpaced(t: Trace, ins: seq<Input>, depth: nat)
    requires Sink.AwaitsKey(t.hw.sink) && AllowedRun(t, ins, depth) && Fed(t, ins, depth)
    ensures NeverSlips(t, ins, depth) <==> Spaced(t, ins, depth)
  {
    hide Run, Book, Room, Sink.AwaitsKey, SlipsAt, AfterGap, AllowedRun, Fed;
    forall n | 0 <= n < |ins|
      ensures SlipsAt(Run(t, ins[..n], depth).hw, Book(t, ins[..n], depth), ins[n]) <==>
        && ins[n].offer.Some?
        && (AfterTaking(t, ins, n, depth) || (AfterGap(t, ins, n, depth) && !Room(Run(t, ins[..n], depth).hw, ins[n])))
    {
      SlipsAtIff(t, ins, n, depth);
    }
    if n :| 0 <= n < |ins| && ins[n].offer.Some? && AfterTaking(t, ins, n, depth) {
      assert AfterGap(t, ins, n - 1, depth);
    }
    forall n | 0 <= n < |ins| - 1 && AfterGap(t, ins, n, depth) && ins[n].offer.Some? && ins[n + 1].offer.Some?
      ensures !NeverSlips(t, ins, depth)
    {
      if Room(Run(t, ins[..n], depth).hw, ins[n]) {
        assert AfterTaking(t, ins, n + 1, depth);
      }
    }
  }

  /** A source that goes on offering after the key slips, whatever else happens. */
  lemma ContinuousSourceSlips(t: Trace, ins: seq<Input>, depth: nat)
    requires Sink.AwaitsKey(t.hw.sink) && AllowedRun(t, ins, depth) && Fed(t, ins, depth) && |ins| >= 2
    requires ins[0].offer.Some? && ins[1].offer.Some?
    ensures !NeverSlips(t, ins, depth)
  {
    hide Step, Book, BookedAt, Room, Gap, Sink.AwaitsKey, Spaced;
    NeverSlipsIffSpaced(t, ins, depth);
    KeyFirst(t, ins, depth);
  }

  /** Offers for the key, and then, after the edge that follows, at every edge until the source has
      nothing more to send. */
  predicate Paced(ins: seq<Input>, end: nat) {
    && 2 <= end <= |ins|
    && ins[0].offer.Some?
    && (forall n :: 2 <= n < end ==> ins[n].offer.Some?)
    && (forall n :: end <= n < |ins| ==> ins[n].offer.None?)
  }

  lemma SetupStays(t: Trace, i: Input, depth: nat)
    requires i.resetn && !i.ctrl
    requires t.hw.sink.setupDone || (t.hw.sink.state == Sink.S0 && i.offer.Some?)
    ensures Step(t, i, depth).hw.sink.setupDone
  {
    hide Core.Step, Source.Step, NextFifo, Enters, CoreWires, Ready, KeySchedule.Schedule;
  }

  lemma {:induction false} SetupAlong(t: Trace, ins: seq<Input>, n: nat, depth: nat)
    requires Sink.AwaitsKey(t.hw.sink) && AllowedRun(t, ins, depth) && Fed(t, ins, depth)
    requires 1 <= n <= |ins| && ins[0].offer.Some?
    ensures Run(t, ins[..n], depth).hw.sink.setupDone
  {
    hide Step, Book, AllowedRun, Fed;
    BookGrows(t, ins, n - 1, depth);
    FedAt(t, ins, n - 1, depth);
    if n == 1 {
      assert ins[..0] == [] && Run(t, [], depth) == t;
    } else {
      SetupAlong(t, ins, n - 1, depth);
    }
    SetupStays(Run(t, ins[..n - 1], depth), ins[n - 1], depth);
  }

  lemma KeyCaptured(t: Trace, i: Input, depth: nat)
    requires Sink.AwaitsKey(t.hw.sink) && i.resetn && !i.ctrl && i.offer.Some?
    ensures Gap(t.hw, i) && Step(t, i, depth).hw.sink.state == Sink.S2
  {
    hide Core.Step, Source.Step, NextFifo, Enters, CoreWires, Ready, KeySchedule.Schedule;
  }

  /** A key at the first edge leaves the sink waiting for the key buffer. */
  lemma KeyFirst(t: Trace, ins: seq<Input>, depth: nat)
    requires Sink.AwaitsKey(t.hw.sink) && AllowedRun(t, ins, depth) && Fed(t, ins, depth)
    requires |ins| >= 2 && ins[0].offer.Some?
    ensures Run(t, ins[..1], depth).hw.sink.state == Sink.S2
    ensures Spaced(t, ins, depth) ==> ins[1].offer.None?
  {
    hide Step, Book, BookedAt, Gap, Sink.AwaitsKey, AllowedRun, Fed;
    assert ins[..0] == [] && Run(t, [], depth) == t;
    BookGrows(t, ins, 0, depth);
    FedAt(t, ins, 0, depth);
    KeyCaptured(t, ins[0], depth);
    assert AfterGap(t, ins, 1, depth);
  }

  /** For such a source it comes down to a pause right after the key. */
  lemma SpacedIffPauses(t: Trace, ins: seq<Input>, end: nat, depth: nat)
    requires Sink.AwaitsKey(t.hw.sink) && AllowedRun(t, ins, depth) && Fed(t, ins, depth) && Paced(ins, end)
    ensures Spaced(t, ins, depth) <==> ins[1].offer.None?
  {
    hide Run, Step, Book, BookedAt, Room, Gap, Sink.AwaitsKey, AllowedRun, Fed;
    KeyFirst(t, ins, depth);
    if ins[1].offer.None? {
      assert ins[..0] == [] && !AfterGap(t, ins, 0, depth);
      forall n | 2 <= n < |ins| && ins[n].offer.Some?
        ensures !AfterGap(t, ins, n, depth)
      {
        SetupAlong(t, ins, n - 1, depth);
        NoGap(Run(t, ins[..n - 1], depth).hw, ins[n - 1]);
      }
    }
  }

  lemma NoGap(h: Hardware, i: Input)
    requires h.sink.setupDone && (i.offer.Some? || h.sink.state == Sink.S2)
    ensures !Gap(h, i)
  {
  }

  // ----- the file

  function DataOf(bs: seq<Beat>): (xs: seq<Block>)
    ensures |xs| == |bs|
  {
    seq(|bs|, k requires 0 <= k < |bs| => bs[k].data)
  }

  /** The words that entered the FIFO between two points of a run. */
  function PushedSince(t: Trace, u: Trace): seq<Block> {
    if |t.pushes| <= |u.pushes| then DataOf(Pushed(u.pushes[|t.pushes|..])) else []
  }

  /** The words pushed since t are the decryptions of the blocks taken after the key. */
  lemma PushedIsDeciphered(t: Trace, u: Trace, l: Ledger, depth: nat)
    requires Inv(t, depth) && Inv(u, depth) && NothingPending(t.hw) && NothingPending(u.hw)
    requires Feeding(t, u, l) && l.taken != []
    ensures PushedSince(t, u) == AesFiles.Deciphered(l.taken[0].data, DataOf(l.taken[1..]))
  {
    hide CoreOk, SourceOk, Decrypt, KeySchedule.Schedule, Sink.AwaitsKey;
    assert Pushed(t.pushes) == ExpectedAll(t.captures) && Pushed(u.pushes) == ExpectedAll(u.captures);
    forall k | 0 <= k < |u.pushes| - |t.pushes|
      ensures PushedSince(t, u)[k] == KeySchedule.InvCipher(l.taken[0].data, l.taken[1..][k].data)
    {
      assert Pushed(u.pushes)[|t.pushes| + k] == ExpectedAll(u.captures)[|t.captures| + k];
    }
  }

  /** From a reachable state that awaits a key to one with nothing pending, the stream acknowledges
      the key and then these blocks. */
  predicate Carries(t: Trace, ins: seq<Input>, depth: nat, key: Block, xs: seq<Block>) {
    && Inv(t, depth) && NothingPending(t.hw) && Sink.AwaitsKey(t.hw.sink)
    && AllowedRun(t, ins, depth) && Fed(t, ins, depth) && NothingPending(Run(t, ins, depth).hw)
    && DataOf(Book(t, ins, depth).acked) == [key] + xs
  }

  /** A file offered at any pace and under any back-pressure, all of it acknowledged: what enters the
      FIFO is the decrypted file if and only if a beat offered right after a gap finds room and the
      source pauses after it. */
  lemma DecryptsFileIff(t: Trace, ins: seq<Input>, depth: nat, key: seq<Gf256.Byte>, file: seq<Gf256.Byte>)
    requires |key| == AesFiles.AES_KEY_WIDTH && |file| < Alignment.SIZES
    requires Carries(t, ins, depth, AesFiles.ToBlock(key), AesFiles.SentBlocks(key, file))
    ensures AesFiles.Unblocks(PushedSince(t, Run(t, ins, depth))) == AesFiles.DecryptedFile(key, file)
       <==> Spaced(t, ins, depth)
  {
    hide HwStep, CoreOk, SourceOk, StreamOk, Run, Book, Fed, AllowedRun, NeverSlips, Spaced, KeySchedule.InvCipher,
      AesFiles.ToBlock, AesFiles.Blocks, AesFiles.Unblocks;
    var u, l := Run(t, ins, depth), Book(t, ins, depth);
    var k, xs := AesFiles.ToBlock(key), AesFiles.SentBlocks(key, file);
    InvAlong(t, ins, depth);
    FeedingAlong(t, ins, depth);
    assert DataOf(l.acked)[0] == k;
    PushedIsDeciphered(t, u, l, depth);
    DecryptedIs(key, file);
    NeverSlipsIffSpaced(t, ins, depth);
    if NeverSlips(t, ins, depth) {
      assert l.taken == l.acked;
      assert DataOf(l.taken[1..]) == DataOf(l.acked)[1..] == xs;
    } else {
      assert |l.taken[1..]| < |xs|;
    }
  }

  /** With offers at every edge but perhaps the one after the key: the file comes out decrypted if and
      only if the source does pause right after the key. */
  lemma DecryptsPacedFileIff(t: Trace, ins: seq<Input>, end: nat, depth: nat,
                             key: seq<Gf256.Byte>, file: seq<Gf256.Byte>)
    requires |key| == AesFiles.AES_KEY_WIDTH && |file| < Alignment.SIZES
    requires Carries(t, ins, depth, AesFiles.ToBlock(key), AesFiles.SentBlocks(key, file)) && Paced(ins, end)
    ensures AesFiles.Unblocks(PushedSince(t, Run(t, ins, depth))) == AesFiles.DecryptedFile(key, file)
       <==> ins[1].offer.None?
  {
    hide Run, Inv, NothingPending, AllowedRun, Fed, Spaced, Room, Sink.AwaitsKey, AesFiles.Unblocks;
    DecryptsFileIff(t, ins, depth, key, file);
    SpacedIffPauses(t, ins, end, depth);
  }

  lemma DecryptedIs(key: seq<Gf256.Byte>, file: seq<Gf256.Byte>)
    requires |key| == AesFiles.AES_KEY_WIDTH && |file| < Alignment.SIZES
    ensures AesFiles.DecryptedFile(key, file)
         == AesFiles.Unblocks(AesFiles.Deciphered(AesFiles.ToBlock(key), AesFiles.SentBlocks(key, file)))
  {
    hide KeySchedule.InvCipher, AesFiles.ToBlock, AesFiles.Unblocks, AesFiles.Blocks;
    var sent := AesFiles.TxContent(key, file, AesFiles.TextSize(|file|));
    assert sent[..16] == key;
  }
}
