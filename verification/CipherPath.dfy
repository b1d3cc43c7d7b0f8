/**
 The cipher half of `AXI_aes_core_v1_0` with a bounded FIFO behind it: sink, start-pulse
 generator, core, source. The composition is a stream transformer: what enters the FIFO is the
 cipher of what was captured, in order, once each, over runs of any length.
 */
module CipherPath {
  import opened AesRounds
  import opened KeySchedule
  import opened AxisStream
  import Sink = CipherSink
  import Source = AxisSource
  import Core = CipherCore
  import KeyExpander
  import Runs

  /** The registers of the path. */
  datatype Hardware = Hardware(
    sink: Sink.Regs,
    start: bool,
    startPrev: bool,
    core: Core.Regs,
    source: Source.Regs,
    fifo: seq<Beat>
  )

  /** What the environment does at one edge: holds reset (active low), offers a beat or not,
      pulses the key request, holds the configuration bit that resets the FIFO, and takes a word
      out of the FIFO. */
  datatype Input = Input(resetn: bool, offer: Offer, ctrl: bool, config: bool, pop: bool)

  /** A captured block with the key in force and the number of the edge. */
  datatype Capture = Capture(block: Beat, key: Block, at: nat)

  /** The hardware and what has happened to it; `key` is the latest captured key, and zero
      before the first, which is what reset puts into the register. */
  datatype Trace = Trace(hw: Hardware, now: nat, key: Block, captures: seq<Capture>, pushes: seq<Push>)

  // ----- wires

  /** The FIFO is held in reset by the configuration bit and by the system reset. */
  predicate FifoReset(i: Input) {
    i.config || !i.resetn
  }

  /** The FIFO accepts a word when it has room and is not being reset. */
  predicate Ready(h: Hardware, i: Input, depth: nat) {
    !FifoReset(i) && |h.fifo| < depth
  }

  predicate StartPulse(h: Hardware) {
    !h.startPrev && h.start
  }

  function SinkWires(h: Hardware, i: Input): Sink.Wires {
    Sink.Wires(i.resetn, i.ctrl, h.core.done, h.source.busy || FifoReset(i), i.offer)
  }

  function CoreWires(h: Hardware, i: Input): Core.Wires {
    Core.Wires(i.resetn, StartPulse(h), h.sink.key, h.sink.data)
  }

  predicate Enters(h: Hardware, i: Input, depth: nat) {
    h.source.tvalid && Ready(h, i, depth)
  }

  function NextFifo(h: Hardware, i: Input, depth: nat): seq<Beat> {
    if FifoReset(i) then []
    else
      (if i.pop && h.fifo != [] then h.fifo[1..] else h.fifo)
      + (if Enters(h, i, depth) then [Beat(h.source.tdata, h.source.tlast)] else [])
  }

  // ----- one edge

  function HwStep(h: Hardware, i: Input, depth: nat): Hardware {
    Hardware(
      Sink.Step(h.sink, SinkWires(h, i)),
      i.resetn && h.sink.dataValid,
      i.resetn && h.start,
      Core.Step(h.core, CoreWires(h, i)),
      Source.Step(h.source, i.resetn, h.core.done, h.core.textOut, h.sink.dataLast, Ready(h, i, depth)),
      NextFifo(h, i, depth)
    )
  }

  function Step(t: Trace, i: Input, depth: nat): Trace {
    var w := SinkWires(t.hw, i);
    Trace(
      HwStep(t.hw, i, depth),
      t.now + 1,
      if Sink.CapturesKey(t.hw.sink, w) then i.offer.beat.data else t.key,
      t.captures + if Sink.CapturesBlock(t.hw.sink, w) then [Capture(i.offer.beat, t.key, t.now)] else [],
      t.pushes + if Enters(t.hw, i, depth) then [Push(Beat(t.hw.source.tdata, t.hw.source.tlast), t.now)] else []
    )
  }

  function Stepping(depth: nat): (Trace, Input) -> Trace {
    (t, i) => Step(t, i, depth)
  }

  function Run(t: Trace, ins: seq<Input>, depth: nat): Trace {
    Runs.Run(Stepping(depth), t, ins)
  }

  // ----- what the environment must respect

  /** Neither the core nor the source has a result on its way. */
  predicate NothingPending(h: Hardware) {
    h.sink.state == Sink.S0 && Source.Held(h.source) == []
  }

  /** Reset stays released, keys are requested only in S0, and the FIFO is reset only with no
      result pending. */
  predicate Allowed(h: Hardware, i: Input) {
    && i.resetn
    && (i.ctrl ==> h.sink.state == Sink.S0)
    && (i.config ==> NothingPending(h))
  }

  predicate AllowedRun(t: Trace, ins: seq<Input>, depth: nat) {
    forall n :: 0 <= n < |ins| ==> Allowed(Run(t, ins[..n], depth).hw, ins[n])
  }

  // ----- what the stream of pushed words has to be

  function Expected(c: Capture): Beat {
    Beat(Cipher(c.key, c.block.data), c.block.last)
  }

  function ExpectedAll(cs: seq<Capture>): (bs: seq<Beat>)
    ensures |bs| == |cs|
  {
    seq(|cs|, i requires 0 <= i < |cs| => Expected(cs[i]))
  }

  /** The word the core is working on. */
  function InCore(t: Trace): seq<Beat> {
    if t.hw.sink.state == Sink.S1 && |t.captures| > 0 then [Expected(t.captures[|t.captures| - 1])] else []
  }

  // ----- the invariant

  /** Edges since the block in the sink was captured. */
  function Age(t: Trace): int
    requires |t.captures| > 0
  {
    t.now - 1 - t.captures[|t.captures| - 1].at
  }

  /** The start flags cannot raise a pulse before the next capture. */
  predicate Quiet(h: Hardware) {
    (h.sink.dataValid ==> h.start) && (h.start ==> h.startPrev)
  }

  /** Sink, pulse generator and core: each captured block raises one pulse, and block and key
      stay put until the core is done with them. */
  predicate CoreOk(t: Trace) {
    var h := t.hw;
    && h.sink.key == t.key
    && (h.sink.state == Sink.S0 ==>
      && Core.Idle(h.core)
      && Quiet(h)
      && (|t.captures| > 0 ==> Age(t) >= 15))
    && (h.sink.state == Sink.S1 ==>
      && h.sink.setupDone
      && |t.captures| > 0
      && 0 <= Age(t) <= 14
      && var c := t.captures[|t.captures| - 1];
      && h.sink.data == c.block.data && h.sink.dataLast == c.block.last && t.key == c.key
      && (Age(t) <= 2 ==> Core.Idle(h.core))
      && (Age(t) == 0 ==> !h.sink.dataValid && Quiet(h))
      && (Age(t) == 1 ==> h.sink.dataValid && !h.start)
      && (Age(t) == 2 ==> h.sink.dataValid && h.start && !h.startPrev)
      && (Age(t) >= 3 ==> h.sink.dataValid && h.start && h.startPrev)
      && (Age(t) >= 3 ==> Core.Busy(h.core, c.key, c.block.data, Age(t) - 3)))
  }

  /** The source is at rest whenever the core can finish, and offers a word only with room. */
  predicate SourceOk(t: Trace, depth: nat) {
    var h := t.hw;
    && Source.Ok(h.source)
    && |h.fifo| <= depth
    && (h.sink.state == Sink.S1 && |t.captures| > 0 ==> h.source.state == Source.S0)
    && (h.sink.state == Sink.S1 && |t.captures| > 0 && Age(t) >= 1 ==> !h.source.tvalid)
    && (h.source.state == Source.S1 || h.source.tvalid ==> |h.fifo| < depth)
  }

  predicate StreamOk(t: Trace) {
    && Pushed(t.pushes) + Source.Held(t.hw.source) + InCore(t) == ExpectedAll(t.captures)
    && (forall i :: 0 <= i < |t.captures| - 1 ==> t.captures[i + 1].at - t.captures[i].at >= 16)
  }

  predicate Inv(t: Trace, depth: nat) {
    CoreOk(t) && SourceOk(t, depth) && StreamOk(t)
  }

  lemma CoreKept(t: Trace, i: Input, depth: nat)
    requires CoreOk(t) && Allowed(t.hw, i)
    ensures CoreOk(Step(t, i, depth))
  {
    hide Core.Step, Core.Busy, Source.Step, NextFifo, Cipher;
    var h := t.hw;
    if h.sink.state == Sink.S1 {
      var c := t.captures[|t.captures| - 1];
      if Age(t) == 2 {
        Core.LoadStarts(h.core, CoreWires(h, i));
      } else {
        if Age(t) >= 3 {
          Core.BusyShows(h.core, c.key, c.block.data, Age(t) - 3);
        }
        if 3 <= Age(t) <= 13 {
          Core.EdgeAdvances(h.core, CoreWires(h, i), c.key, c.block.data, Age(t) - 3);
        } else {
          Core.DoneThenIdle(h.core, CoreWires(h, i));
        }
      }
    } else {
      Core.DoneThenIdle(h.core, CoreWires(h, i));
    }
  }

  /** The core raises `done` for the captured block only, with its cipher on `text_out`. */
  lemma DoneMeansCiphered(t: Trace)
    requires CoreOk(t) && t.hw.core.done
    ensures t.hw.sink.state == Sink.S1 && |t.captures| > 0 && Age(t) == 14
    ensures InCore(t) == [Beat(t.hw.core.textOut, t.hw.sink.dataLast)]
  {
    hide Core.Busy, Cipher;
    var c := t.captures[|t.captures| - 1];
    if Age(t) >= 3 {
      Core.BusyShows(t.hw.core, c.key, c.block.data, Age(t) - 3);
    }
  }

  lemma NotDoneMeansBusy(t: Trace)
    requires CoreOk(t) && t.hw.sink.state == Sink.S1 && Age(t) == 14
    ensures t.hw.core.done
  {
    hide Core.Busy, Cipher;
    var c := t.captures[|t.captures| - 1];
    Core.BusyShows(t.hw.core, c.key, c.block.data, 11);
  }

  lemma FifoFits(h: Hardware, i: Input, depth: nat)
    requires |h.fifo| <= depth
    ensures |NextFifo(h, i, depth)| <= depth
    ensures !Enters(h, i, depth) ==> |NextFifo(h, i, depth)| <= |h.fifo|
    ensures FifoReset(i) ==> NextFifo(h, i, depth) == []
  {
  }

  lemma SourceKept(t: Trace, i: Input, depth: nat)
    requires Inv(t, depth) && Allowed(t.hw, i)
    ensures SourceOk(Step(t, i, depth), depth)
  {
    hide Core.Step, Core.Busy, StreamOk, Cipher;
    var h := t.hw;
    if h.core.done {
      DoneMeansCiphered(t);
    }
    if h.sink.state == Sink.S1 && Age(t) == 14 {
      NotDoneMeansBusy(t);
    }
    FifoFits(h, i, depth);
    hide NextFifo;
    Source.HeldIsAQueue(h.source, h.core.done, h.core.textOut, h.sink.dataLast, Ready(h, i, depth));
  }

  lemma ExpectedGrows(cs: seq<Capture>, c: Capture)
    ensures ExpectedAll(cs + [c]) == ExpectedAll(cs) + [Expected(c)]
  {
    hide Expected;
  }

  /** A word enters the FIFO exactly when it has been on offer for a clock. */
  lemma OfferedEnters(t: Trace, i: Input, depth: nat)
    requires SourceOk(t, depth) && Allowed(t.hw, i)
    ensures Enters(t.hw, i, depth) <==> t.hw.source.tvalid
  {
  }

  /** The word in the core moves on when the core is done, and a captured block takes its place
      at another edge. */
  lemma InCoreMoves(t: Trace, i: Input, depth: nat)
    requires CoreOk(t) && Allowed(t.hw, i)
    ensures var h := t.hw; var t' := Step(t, i, depth);
      if h.core.done then
        InCore(t) == [Beat(h.core.textOut, h.sink.dataLast)] && InCore(t') == [] && t'.captures == t.captures
      else if Sink.CapturesBlock(h.sink, SinkWires(h, i)) then
        && InCore(t) == []
        && t'.captures == t.captures + [Capture(i.offer.beat, t.key, t.now)]
        && InCore(t') == [Expected(Capture(i.offer.beat, t.key, t.now))]
      else
        InCore(t') == InCore(t) && t'.captures == t.captures
  {
    hide Core.Step, Core.Busy, Source.Step, NextFifo, Expected, Core.Idle;
    if t.hw.core.done {
      DoneMeansCiphered(t);
    }
  }

  /** The word in the source moves on when it has been on offer, and a result takes its place. */
  lemma PushesMove(t: Trace, i: Input, depth: nat)
    requires Inv(t, depth) && Allowed(t.hw, i)
    ensures var h := t.hw; var t' := Step(t, i, depth);
      Pushed(t'.pushes) + Source.Held(t'.hw.source)
        == Pushed(t.pushes) + Source.Held(h.source)
           + if h.core.done then [Beat(h.core.textOut, h.sink.dataLast)] else []
  {
    hide Core.Step, Core.Busy, Source.Step, Sink.Step, NextFifo, Core.Idle, InCore, Expected, ExpectedAll, Pushed,
      StreamOk;
    var h := t.hw;
    if h.core.done {
      DoneMeansCiphered(t);
    }
    OfferedEnters(t, i, depth);
    Source.HeldIsAQueue(h.source, h.core.done, h.core.textOut, h.sink.dataLast, Ready(h, i, depth));
    var p := Push(Beat(h.source.tdata, h.source.tlast), t.now);
    PushedGrows(t.pushes, p);
    if h.source.tvalid {
      assert Step(t, i, depth).pushes == t.pushes + [p];
    } else {
      assert Step(t, i, depth).pushes == t.pushes;
    }
  }

  lemma StreamKept(t: Trace, i: Input, depth: nat)
    requires Inv(t, depth) && Allowed(t.hw, i)
    ensures StreamOk(Step(t, i, depth))
  {
    hide Core.Step, Core.Busy, Source.Step, Sink.Step, NextFifo, Expected, ExpectedAll, Pushed, Core.Idle, InCore,
      Enters, Source.Held;
    InCoreMoves(t, i, depth);
    PushesMove(t, i, depth);
    ExpectedGrows(t.captures, Capture(if i.offer.Some? then i.offer.beat else Beat(t.key, false), t.key, t.now));
  }

  // ----- every reachable state

  lemma InvKept(t: Trace, i: Input, depth: nat)
    requires Inv(t, depth) && Allowed(t.hw, i)
    ensures Inv(Step(t, i, depth), depth)
  {
    hide Step, CoreOk, SourceOk, StreamOk;
    CoreKept(t, i, depth);
    SourceKept(t, i, depth);
    StreamKept(t, i, depth);
  }

  function Start(h: Hardware): Trace {
    Trace(h, 0, ZERO_BLOCK, [], [])
  }

  /** Two edges in reset start the path from any register contents. */
  lemma ResetStarts(h: Hardware, i: Input, j: Input, depth: nat)
    requires !i.resetn && !j.resetn
    ensures Inv(Start(HwStep(HwStep(h, i, depth), j, depth)), depth)
  {
    hide AddKey, Round, LastRound, Cipher, KeyExpander.Step, Source.Step;
    var h' := HwStep(h, i, depth);
    Source.ResetIsEmpty(h'.source, h'.core.done, h'.core.textOut, h'.sink.dataLast, Ready(h', j, depth));
  }

  /** Holding the FIFO in reset by the configuration bit discards nothing that was still to come:
      every result has entered the FIFO before, and the edge takes no block and pushes no word. */
  lemma HeldFifoLosesNothing(t: Trace, i: Input, depth: nat)
    requires Inv(t, depth) && Allowed(t.hw, i) && i.config
    ensures var t' := Step(t, i, depth);
      && Pushed(t.pushes) == ExpectedAll(t.captures)
      && t'.captures == t.captures && t'.pushes == t.pushes && t'.hw.fifo == []
  {
    hide Core.Step, Source.Step, Expected, ExpectedAll, Pushed, CoreOk;
    OfferedEnters(t, i, depth);
  }

  lemma AllowedPrefix(t: Trace, ins: seq<Input>, n: nat, depth: nat)
    requires AllowedRun(t, ins, depth) && n <= |ins|
    ensures AllowedRun(t, ins[..n], depth)
  {
    hide Run, Allowed;
    forall k | 0 <= k < n
      ensures Allowed(Run(t, ins[..n][..k], depth).hw, ins[..n][k])
    {
      assert ins[..n][..k] == ins[..k];
    }
  }

  lemma {:induction false} InvAlong(t: Trace, ins: seq<Input>, depth: nat)
    requires Inv(t, depth) && AllowedRun(t, ins, depth)
    ensures Inv(Run(t, ins, depth), depth)
  {
    hide Step, Inv, Allowed;
    if ins != [] {
      var n := |ins| - 1;
      AllowedPrefix(t, ins, n, depth);
      InvAlong(t, ins[..n], depth);
      InvKept(Run(t, ins[..n], depth), ins[n], depth);
    }
  }

  // ----- the results

  /** From reset, over any run with any timing of offers and any draining of the FIFO: the words
      that entered the FIFO are the ciphers, under the latest captured key, of the captured
      blocks, in order and once each, with their own TLAST. At most the last two captures are
      still on their way, and none when nothing is pending. */
  lemma CipherStream(h: Hardware, i: Input, j: Input, ins: seq<Input>, depth: nat)
    requires !i.resetn && !j.resetn
    requires AllowedRun(Start(HwStep(HwStep(h, i, depth), j, depth)), ins, depth)
    ensures var t := Run(Start(HwStep(HwStep(h, i, depth), j, depth)), ins, depth);
      && Pushed(t.pushes) <= ExpectedAll(t.captures)
      && |t.captures| <= |t.pushes| + 2
      && (NothingPending(t.hw) ==> Pushed(t.pushes) == ExpectedAll(t.captures))
  {
    hide HwStep, Run, Expected, ExpectedAll, Pushed, CoreOk, SourceOk;
    ResetStarts(h, i, j, depth);
    InvAlong(Start(HwStep(HwStep(h, i, depth), j, depth)), ins, depth);
  }

  /** No overrun: a finished core always finds the source at rest, a word on offer always finds
      room, and captures are at least sixteen edges apart. */
  lemma NoOverrun(h: Hardware, i: Input, j: Input, ins: seq<Input>, depth: nat)
    requires !i.resetn && !j.resetn
    requires AllowedRun(Start(HwStep(HwStep(h, i, depth), j, depth)), ins, depth)
    ensures var t := Run(Start(HwStep(HwStep(h, i, depth), j, depth)), ins, depth);
      && (t.hw.core.done ==> t.hw.source.state == Source.S0)
      && (t.hw.source.tvalid ==> |t.hw.fifo| < depth)
      && |t.hw.fifo| <= depth
      && (forall n :: 0 <= n < |t.captures| - 1 ==> t.captures[n + 1].at - t.captures[n].at >= 16)
  {
    hide HwStep, Run, Expected, ExpectedAll, Pushed, CoreOk;
    ResetStarts(h, i, j, depth);
    InvAlong(Start(HwStep(HwStep(h, i, depth), j, depth)), ins, depth);
    var t := Run(Start(HwStep(HwStep(h, i, depth), j, depth)), ins, depth);
    if t.hw.core.done {
      DoneMeansCiphered(t);
    }
  }

  // ----- latency

  lemma {:induction false} AgeAlong(t: Trace, ins: seq<Input>, depth: nat)
    requires Inv(t, depth) && AllowedRun(t, ins, depth)
    requires t.hw.sink.state == Sink.S1 && Age(t) == 0 && |ins| <= 14
    ensures var t' := Run(t, ins, depth);
      Inv(t', depth) && t'.hw.sink.state == Sink.S1 && t'.captures == t.captures && t'.now == t.now + |ins|
  {
    hide HwStep, Inv, Allowed;
    if ins != [] {
      var n := |ins| - 1;
      AllowedPrefix(t, ins, n, depth);
      AgeAlong(t, ins[..n], depth);
      var u := Run(t, ins[..n], depth);
      InvKept(u, ins[n], depth);
      StaysInCore(u, ins[n], depth);
    }
  }

  lemma StaysInCore(t: Trace, i: Input, depth: nat)
    requires Inv(t, depth) && Allowed(t.hw, i)
    requires t.hw.sink.state == Sink.S1 && Age(t) < 14
    ensures var t' := Step(t, i, depth); t'.hw.sink.state == Sink.S1 && t'.captures == t.captures
  {
    hide Core.Step, Core.Busy, Source.Step, NextFifo, SourceOk, StreamOk;
    if t.hw.core.done {
      DoneMeansCiphered(t);
    }
  }

  lemma DoneToFifo(t: Trace, i: Input, j: Input, k: Input, depth: nat)
    requires Inv(t, depth) && t.hw.sink.state == Sink.S1 && Age(t) == 14
    requires Allowed(t.hw, i) && Ready(t.hw, i, depth)
    requires Allowed(Step(t, i, depth).hw, j) && Allowed(Step(Step(t, i, depth), j, depth).hw, k)
    ensures var c := t.captures[|t.captures| - 1];
      var t' := Step(Step(Step(t, i, depth), j, depth), k, depth);
      |t'.pushes| == |t.captures| && t'.pushes[|t.captures| - 1] == Push(Expected(c), c.at + 17)
  {
    hide Core.Step, Core.Busy, Sink.Step, NextFifo, CoreOk, Expected;
    NotDoneMeansBusy(t);
    DoneMeansCiphered(t);
    var t1 := Step(t, i, depth);
    var t2 := Step(t1, j, depth);
    InvKept(t, i, depth);
    InvKept(t1, j, depth);
    OfferedEnters(t2, k, depth);
  }

  /** A block captured at edge c enters the FIFO at edge c + 17, provided the FIFO has room at
      edge c + 15. */
  lemma EntersSeventeenEdgesLater(t: Trace, ins: seq<Input>, depth: nat)
    requires Inv(t, depth) && t.hw.sink.state == Sink.S1 && Age(t) == 0
    requires |ins| == 17 && AllowedRun(t, ins, depth)
    requires Ready(Run(t, ins[..14], depth).hw, ins[14], depth)
    ensures var c := t.captures[|t.captures| - 1];
      var t' := Run(t, ins, depth);
      |t'.pushes| == |t.captures| && t'.pushes[|t.captures| - 1] == Push(Expected(c), c.at + 17)
  {
    hide Step, Inv, Allowed, Ready, Expected;
    AllowedPrefix(t, ins, 14, depth);
    AgeAlong(t, ins[..14], depth);
    assert ins[..17] == ins;
    assert ins[..17][..16] == ins[..16] && ins[..16][..15] == ins[..15] && ins[..15][..14] == ins[..14];
    DoneToFifo(Run(t, ins[..14], depth), ins[14], ins[15], ins[16], depth);
  }

  /** A result that found no room enters the FIFO at the second edge after the one that sees room. */
  lemma WaitingEnters(t: Trace, i: Input, j: Input, k: Input, depth: nat)
    requires Inv(t, depth) && t.hw.source.state == Source.S2
    requires Allowed(t.hw, i) && Ready(t.hw, i, depth)
    requires Allowed(Step(t, i, depth).hw, j) && Allowed(Step(Step(t, i, depth), j, depth).hw, k)
    ensures var t' := Step(Step(Step(t, i, depth), j, depth), k, depth);
      t'.pushes == t.pushes + [Push(Beat(t.hw.source.tdata, t.hw.source.tlast), t.now + 2)]
  {
    hide Core.Step, Core.Busy, Sink.Step, NextFifo, CoreOk, Expected;
    var t1 := Step(t, i, depth);
    var t2 := Step(t1, j, depth);
    InvKept(t, i, depth);
    InvKept(t1, j, depth);
    OfferedEnters(t, i, depth);
    OfferedEnters(t1, j, depth);
    OfferedEnters(t2, k, depth);
  }

  lemma DoneFindsNoRoom(t: Trace, i: Input, depth: nat)
    requires Inv(t, depth) && t.hw.sink.state == Sink.S1 && Age(t) == 14
    requires Allowed(t.hw, i) && !Ready(t.hw, i, depth)
    ensures var t' := Step(t, i, depth); var c := t.captures[|t.captures| - 1];
      && t'.hw.source.state == Source.S2 && Beat(t'.hw.source.tdata, t'.hw.source.tlast) == Expected(c)
      && |t'.pushes| == |t.captures| - 1 && t'.now == t.now + 1
  {
    hide Core.Step, Core.Busy, Sink.Step, NextFifo, CoreOk, Expected;
    NotDoneMeansBusy(t);
    DoneMeansCiphered(t);
    InvKept(t, i, depth);
  }

  /** A result that finds no room stays where it is, and nothing is captured meanwhile. */
  lemma WaitingStays(t: Trace, i: Input, depth: nat)
    requires Inv(t, depth) && t.hw.source.state == Source.S2 && Allowed(t.hw, i) && !Ready(t.hw, i, depth)
    ensures var t' := Step(t, i, depth);
      && t'.hw.source.state == Source.S2 && t'.pushes == t.pushes && t'.captures == t.captures
      && t'.hw.source.tdata == t.hw.source.tdata && t'.hw.source.tlast == t.hw.source.tlast
  {
    hide Core.Step, Core.Busy, NextFifo, CoreOk, Expected;
    OfferedEnters(t, i, depth);
  }

  lemma {:induction false} WaitsAlong(t: Trace, ins: seq<Input>, depth: nat)
    requires Inv(t, depth) && t.hw.source.state == Source.S2 && AllowedRun(t, ins, depth)
    requires forall n :: 0 <= n < |ins| ==> !Ready(Run(t, ins[..n], depth).hw, ins[n], depth)
    ensures var t' := Run(t, ins, depth);
      && Inv(t', depth) && t'.hw.source.state == Source.S2 && t'.pushes == t.pushes && t'.now == t.now + |ins|
      && t'.hw.source.tdata == t.hw.source.tdata && t'.hw.source.tlast == t.hw.source.tlast
  {
    hide HwStep, Inv, Allowed, Ready;
    if ins != [] {
      var n := |ins| - 1;
      AllowedPrefix(t, ins, n, depth);
      forall k | 0 <= k < n
        ensures !Ready(Run(t, ins[..n][..k], depth).hw, ins[..n][k], depth)
      {
        assert ins[..n][..k] == ins[..k];
      }
      WaitsAlong(t, ins[..n], depth);
      InvKept(Run(t, ins[..n], depth), ins[n], depth);
      WaitingStays(Run(t, ins[..n], depth), ins[n], depth);
    }
  }

  /** A block captured at edge c enters the FIFO at the second edge after the first one, not before
      c + 15, that sees room. */
  lemma EntersTwoEdgesAfterRoom(t: Trace, ins: seq<Input>, depth: nat)
    requires Inv(t, depth) && t.hw.sink.state == Sink.S1 && Age(t) == 0
    requires |ins| >= 17 && AllowedRun(t, ins, depth)
    requires forall n :: 14 <= n < |ins| - 3 ==> !Ready(Run(t, ins[..n], depth).hw, ins[n], depth)
    requires Ready(Run(t, ins[..|ins| - 3], depth).hw, ins[|ins| - 3], depth)
    ensures var c := t.captures[|t.captures| - 1];
      var t' := Run(t, ins, depth);
      |t'.pushes| == |t.captures| && t'.pushes[|t.captures| - 1] == Push(Expected(c), c.at + |ins|)
  {
    if |ins| == 17 {
      EntersSeventeenEdgesLater(t, ins, depth);
    } else {
      WaitsThenEnters(t, ins, depth);
    }
  }

  lemma WaitsThenEnters(t: Trace, ins: seq<Input>, depth: nat)
    requires Inv(t, depth) && t.hw.sink.state == Sink.S1 && Age(t) == 0
    requires |ins| > 17 && AllowedRun(t, ins, depth)
    requires forall n :: 14 <= n < |ins| - 3 ==> !Ready(Run(t, ins[..n], depth).hw, ins[n], depth)
    requires Ready(Run(t, ins[..|ins| - 3], depth).hw, ins[|ins| - 3], depth)
    ensures var c := t.captures[|t.captures| - 1];
      var t' := Run(t, ins, depth);
      |t'.pushes| == |t.captures| && t'.pushes[|t.captures| - 1] == Push(Expected(c), c.at + |ins|)
  {
    hide Step, Inv, Allowed, Ready, Expected, Runs.Run;
    var m := |ins| - 3;
    AllowedPrefix(t, ins, 14, depth);
    AgeAlong(t, ins[..14], depth);
    var done, s := Run(t, ins[..14], depth), Run(t, ins[..15], depth);
    Runs.RunGrows(Stepping(depth), t, ins, 14);
    InvKept(done, ins[14], depth);
    DoneFindsNoRoom(done, ins[14], depth);
    var wait := ins[15..m];
    forall n | 0 <= n <= |wait|
      ensures Run(s, wait[..n], depth) == Run(t, ins[..15 + n], depth)
    {
      Runs.RunOn(Stepping(depth), t, ins[..15], wait[..n]);
      assert ins[..15] + wait[..n] == ins[..15 + n];
    }
    WaitsAlong(s, wait, depth);
    assert wait[..|wait|] == wait;
    Runs.RunGrows(Stepping(depth), t, ins, m);
    Runs.RunGrows(Stepping(depth), t, ins, m + 1);
    Runs.RunGrows(Stepping(depth), t, ins, m + 2);
    assert ins[..m + 3] == ins;
    WaitingEnters(Run(t, ins[..m], depth), ins[m], ins[m + 1], ins[m + 2], depth);
  }

  // ----- the wiring

  /** The cipher instances inside `AXI_aes_core_v1_0` and the start-pulse registers between them. */
  class CipherWiring {
    const sink: Sink.SAxisCipher
    const core: Core.AesCipherTop
    const source: Source.MAxis
    var start: bool
    var startPrev: bool

    constructor ()
      ensures fresh(sink) && fresh(core) && fresh(core.u0) && fresh(core.u0.r0) && fresh(source)
    {
      sink := new Sink.SAxisCipher();
      core := new Core.AesCipherTop();
      source := new Source.MAxis();
    }

    /** The registers together with the words in the FIFO behind them. */
    ghost function Path(fifo: seq<Beat>): Hardware
      reads this, sink, core, core.u0, core.u0.r0, source
    {
      Hardware(sink.Registers(), start, startPrev, core.Registers(), source.Registers(), fifo)
    }

    /** The edges of source and core, the source first because it reads the core. */
    method ResultEdge(i: Input, startPulse: bool, key: Block, data: Block, dataLast: bool, tready: bool)
      modifies core, core.u0, core.u0.r0, source
      ensures core.Registers() == Core.Step(old(core.Registers()), Core.Wires(i.resetn, startPulse, key, data))
      ensures source.Registers() == Source.Step(old(source.Registers()), i.resetn, old(core.done), old(core.textOut),
                                                dataLast, tready)
    {
      hide Core.Step, Source.Step;
      source.Edge(i.resetn, core.done, core.textOut, dataLast, tready);
      core.Edge(i.resetn, startPulse, key, data);
    }

    /** The wires between the instances: every one reads the others as they were before the edge. */
    method WiredEdge(i: Input, tready: bool)
      modifies this`start, this`startPrev, sink, core, core.u0, core.u0.r0, source
      ensures sink.Registers() == Sink.Step(old(sink.Registers()),
        Sink.Wires(i.resetn, i.ctrl, old(core.done), old(source.busy) || FifoReset(i), i.offer))
      ensures core.Registers() == Core.Step(old(core.Registers()),
        Core.Wires(i.resetn, old(!startPrev && start), old(sink.key), old(sink.data)))
      ensures source.Registers() == Source.Step(old(source.Registers()), i.resetn, old(core.done), old(core.textOut),
                                                old(sink.dataLast), tready)
      ensures start == (i.resetn && old(sink.dataValid)) && startPrev == (i.resetn && old(start))
    {
      hide Core.Step, Sink.Step, Source.Step, FifoReset;
      var done := core.done;
      var busy := source.busy || FifoReset(i);
      var dataValid := sink.dataValid;
      var startPulse := !startPrev && start;
      ResultEdge(i, startPulse, sink.key, sink.data, sink.dataLast, tready);
      sink.Edge(i.resetn, i.ctrl, done, busy, i.offer);
      start, startPrev := i.resetn && dataValid, i.resetn && start;
    }

    method Edge(i: Input, tready: bool, ghost fifo: seq<Beat>, ghost depth: nat)
      requires tready == Ready(Path(fifo), i, depth)
      modifies this, sink, core, core.u0, core.u0.r0, source
      ensures Path(NextFifo(old(Path(fifo)), i, depth)) == HwStep(old(Path(fifo)), i, depth)
    {
      hide Core.Step, Sink.Step, Source.Step, NextFifo, Ready;
      WiredEdge(i, tready);
    }
  }
}
