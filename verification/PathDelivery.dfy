/**
 What the cipher path delivers: a block held on offer is captured after a bounded number of edges at
 which the FIFO has room or is drained, and what leaves the FIFO is what entered it.
 */
module CipherDelivery {
  import opened AxisStream
  import opened CipherPath
  import Core = CipherCore
  import KeySchedule
  import Runs
  import Sink = CipherSink
  import Source = AxisSource

  /** The block, and nothing else, is captured between two points of a run, under the key in force. */
  predicate Captures(t: Trace, u: Trace, b: Beat) {
    && |u.captures| == |t.captures| + 1 && u.captures[..|t.captures|] == t.captures
    && u.captures[|t.captures|].block == b && u.captures[|t.captures|].key == t.key
  }

  /** The same block on offer, no key request and no reset of the FIFO. */
  predicate Holds(i: Input, b: Beat) {
    i.resetn && i.offer == Some(b) && !i.ctrl && !i.config
  }

  /** The FIFO has room, or a word is taken out of it. */
  predicate Drains(h: Hardware, i: Input, depth: nat) {
    i.pop || |h.fifo| < depth
  }

  /** An upper bound for the edges that still have to drain the FIFO before the sink captures. */
  function Distance(t: Trace, depth: nat): nat
    requires CoreOk(t)
  {
    var h := t.hw;
    var full := if |h.fifo| < depth then 0 else 1;
    if h.sink.state == Sink.S1 then 20 - Age(t)
    else if !h.source.busy then 1
    else
      match h.source.state
      case S0 => 2 + full
      case S1 => 3
      case S2 => 4 + full
  }

  lemma FifoDrains(h: Hardware, i: Input, depth: nat)
    requires |h.fifo| <= depth && depth >= 1 && !FifoReset(i)
    ensures |h.fifo| < depth <==> Ready(h, i, depth)
    ensures !Enters(h, i, depth) ==> |NextFifo(h, i, depth)| <= |h.fifo|
    ensures i.pop && |h.fifo| == depth ==> |NextFifo(h, i, depth)| < depth
  {
  }

  lemma SinkWaits(t: Trace, i: Input, b: Beat, depth: nat)
    requires t.hw.sink.state == Sink.S1 && t.hw.sink.setupDone && Holds(i, b)
    ensures var t' := Step(t, i, depth);
      && t'.hw.sink.setupDone && t'.key == t.key && t'.captures == t.captures && t'.now == t.now + 1
      && t'.hw.sink.state == if t.hw.core.done then Sink.S0 else Sink.S1
  {
    hide Core.Step, NextFifo, Source.Step;
  }

  /** While the core works the sink captures nothing, and it is done in time. */
  lemma ApproachesInSink(t: Trace, i: Input, b: Beat, depth: nat)
    requires Inv(t, depth) && t.hw.sink.state == Sink.S1 && Holds(i, b)
    requires CoreOk(Step(t, i, depth))
    ensures var t' := Step(t, i, depth);
      t'.hw.sink.setupDone && t'.key == t.key && t'.captures == t.captures && Distance(t', depth) < Distance(t, depth)
  {
    hide Step, StreamOk, SourceOk, Core.Busy, Core.Idle;
    assert |t.captures| > 0 && Age(t) <= 14 && t.hw.sink.setupDone;
    hide CoreOk;
    SinkWaits(t, i, b, depth);
    if Age(t) == 14 {
      NotDoneMeansBusy(t);
    }
  }

  /** With the sink free, the block is captured if the source is not busy; if it is, it gets rid of
      its word. */
  lemma ApproachesAtRest(t: Trace, i: Input, b: Beat, depth: nat)
    requires Inv(t, depth) && t.hw.sink.state == Sink.S0 && t.hw.sink.setupDone && Holds(i, b) && depth >= 1
    requires CoreOk(Step(t, i, depth))
    ensures var t' := Step(t, i, depth);
      && t'.hw.sink.setupDone && t'.key == t.key
      && if !t.hw.source.busy then Captures(t, t', b)
         else
           && t'.captures == t.captures && Distance(t', depth) <= Distance(t, depth)
           && (Drains(t.hw, i, depth) ==> Distance(t', depth) < Distance(t, depth))
  {
    if t.hw.core.done {
      DoneMeansCiphered(t);
    }
    FifoDrains(t.hw, i, depth);
    hide Core.Step, CoreOk, StreamOk, NextFifo, Ready;
  }

  lemma Approaches(t: Trace, i: Input, b: Beat, depth: nat)
    requires Inv(t, depth) && t.hw.sink.setupDone && Holds(i, b) && depth >= 1
    ensures var t' := Step(t, i, depth);
      && Inv(t', depth) && t'.hw.sink.setupDone && t'.key == t.key
      && (Captures(t, t', b) ||
           (t'.captures == t.captures && Distance(t', depth) <= Distance(t, depth)
            && (Drains(t.hw, i, depth) ==> Distance(t', depth) < Distance(t, depth))))
  {
    InvKept(t, i, depth);
    hide Step, CoreOk, SourceOk, StreamOk, Distance, Captures;
    if t.hw.sink.state == Sink.S1 {
      ApproachesInSink(t, i, b, depth);
    } else {
      ApproachesAtRest(t, i, b, depth);
    }
  }

  /** A source at rest and room in the FIFO: the block on offer is captured within two edges. */
  lemma CapturedInTwoEdges(t: Trace, i: Input, j: Input, b: Beat, depth: nat)
    requires Inv(t, depth) && t.hw.sink.state == Sink.S0 && t.hw.sink.setupDone && t.hw.source.state == Source.S0
    requires Ready(t.hw, i, depth) && Holds(i, b) && Holds(j, b)
    ensures Captures(t, Step(Step(t, i, depth), j, depth), b)
  {
    var u := Step(t, i, depth);
    InvKept(t, i, depth);
    InvKept(u, j, depth);
    ApproachesAtRest(t, i, b, depth);
    NotBusyWithRoom(t, i, b, depth);
    hide Step, CoreOk, SourceOk, StreamOk, Distance;
    if u.hw.sink.state == Sink.S1 {
      SinkWaits(u, j, b, depth);
    } else {
      ApproachesAtRest(u, j, b, depth);
    }
  }

  lemma NotBusyWithRoom(t: Trace, i: Input, b: Beat, depth: nat)
    requires CoreOk(t) && t.hw.sink.state == Sink.S0 && t.hw.sink.setupDone && t.hw.source.state == Source.S0
    requires Ready(t.hw, i, depth) && Holds(i, b)
    ensures var h := Step(t, i, depth).hw;
      !h.source.busy && (h.sink.state == Sink.S1 <==> !t.hw.source.busy)
  {
    hide Core.Step, CoreOk, NextFifo;
  }

  /** How many edges of a run find the FIFO with room or drain it. */
  function Drained(t: Trace, ins: seq<Input>, depth: nat): nat {
    if ins == [] then 0
    else
      var n := |ins| - 1;
      Drained(t, ins[..n], depth) + if Drains(Run(t, ins[..n], depth).hw, ins[n], depth) then 1 else 0
  }

  lemma {:induction false} CapturedOrCloser(t: Trace, ins: seq<Input>, b: Beat, depth: nat)
    requires Inv(t, depth) && t.hw.sink.setupDone && depth >= 1
    requires forall n :: 0 <= n < |ins| ==> Holds(ins[n], b)
    ensures var u := Run(t, ins, depth);
      || (exists n :: 0 <= n <= |ins| && Captures(t, Run(t, ins[..n], depth), b))
      || (Inv(u, depth) && u.hw.sink.setupDone && u.key == t.key && u.captures == t.captures
          && Distance(u, depth) + Drained(t, ins, depth) <= Distance(t, depth))
  {
    hide Step, Inv, Drains, Holds, Distance;
    if ins != [] {
      var m := |ins| - 1;
      CapturedOrCloser(t, ins[..m], b, depth);
      if n :| 0 <= n <= m && Captures(t, Run(t, ins[..m][..n], depth), b) {
        assert ins[..m][..n] == ins[..n];
      } else {
        Approaches(Run(t, ins[..m], depth), ins[m], b, depth);
        assert ins[..|ins|] == ins;
      }
    }
  }

  lemma DistanceBounds(t: Trace, depth: nat)
    requires CoreOk(t)
    ensures 1 <= Distance(t, depth) <= 20
  {
    hide Core.Busy, Core.Idle;
  }

  /** A block held on offer is captured, and nothing before it, by the time that twenty edges have
      found the FIFO with room or drained it. */
  lemma HeldBlockIsCaptured(t: Trace, ins: seq<Input>, b: Beat, depth: nat)
    requires Inv(t, depth) && t.hw.sink.setupDone && depth >= 1
    requires forall n :: 0 <= n < |ins| ==> Holds(ins[n], b)
    requires Drained(t, ins, depth) >= 20
    ensures exists n :: 0 <= n <= |ins| && Captures(t, Run(t, ins[..n], depth), b)
  {
    hide Run, Drained, Captures, CoreOk, SourceOk, StreamOk, Holds, Distance;
    CapturedOrCloser(t, ins, b, depth);
    DistanceBounds(t, depth);
    if CoreOk(Run(t, ins, depth)) {
      DistanceBounds(Run(t, ins, depth), depth);
    }
  }

  lemma {:induction false} AllDrained(t: Trace, ins: seq<Input>, depth: nat)
    requires forall n :: 0 <= n < |ins| ==> Drains(Run(t, ins[..n], depth).hw, ins[n], depth)
    ensures Drained(t, ins, depth) == |ins|
  {
    hide Run, Drains;
    if ins != [] {
      var m := |ins| - 1;
      forall n | 0 <= n < m
        ensures Drains(Run(t, ins[..m][..n], depth).hw, ins[..m][n], depth)
      {
        assert ins[..m][..n] == ins[..n];
      }
      AllDrained(t, ins[..m], depth);
    }
  }

  /** With the FIFO drained at every edge, that is within twenty edges from any reachable state. */
  lemma CapturedWithinTwenty(t: Trace, ins: seq<Input>, b: Beat, depth: nat)
    requires Inv(t, depth) && t.hw.sink.setupDone && depth >= 1 && |ins| == 20
    requires forall n :: 0 <= n < 20 ==> Holds(ins[n], b) && ins[n].pop
    ensures exists n :: 0 <= n <= 20 && Captures(t, Run(t, ins[..n], depth), b)
  {
    hide Run, Inv, Holds, Captures;
    AllDrained(t, ins, depth);
    HeldBlockIsCaptured(t, ins, b, depth);
  }

  // ----- what leaves the FIFO

  /** The words taken out of the FIFO along a run. */
  function Popped(t: Trace, ins: seq<Input>, depth: nat): seq<Beat> {
    if ins == [] then []
    else
      var n := |ins| - 1;
      var h := Run(t, ins[..n], depth).hw;
      Popped(t, ins[..n], depth) + if ins[n].pop && h.fifo != [] then [h.fifo[0]] else []
  }

  lemma FifoMoves(t: Trace, i: Input, depth: nat)
    requires !FifoReset(i)
    ensures t.pushes <= Step(t, i, depth).pushes
    ensures var h, t' := t.hw, Step(t, i, depth);
      h.fifo + Pushed(t'.pushes[|t.pushes|..]) == (if i.pop && h.fifo != [] then [h.fifo[0]] else []) + t'.hw.fifo
  {
    hide Core.Step, Sink.Step, Source.Step;
  }

  /** Without a reset of the FIFO, what left it followed by what it holds is what it held followed by
      what entered it. */
  lemma {:induction false} FifoIsAQueue(t: Trace, ins: seq<Input>, depth: nat)
    requires forall n :: 0 <= n < |ins| ==> !FifoReset(ins[n])
    ensures var u := Run(t, ins, depth);
      && |t.pushes| <= |u.pushes|
      && t.hw.fifo + Pushed(u.pushes[|t.pushes|..]) == Popped(t, ins, depth) + u.hw.fifo
  {
    hide Step, Pushed, FifoReset;
    if ins == [] {
      assert t.pushes[|t.pushes|..] == [];
    } else {
      var m := |ins| - 1;
      var v, u := Run(t, ins[..m], depth), Run(t, ins, depth);
      FifoIsAQueue(t, ins[..m], depth);
      FifoMoves(v, ins[m], depth);
      var before, after := v.pushes[|t.pushes|..], u.pushes[|v.pushes|..];
      assert u.pushes[|t.pushes|..] == before + after;
      PushedConcat(before, after);
      QueuesChain(t.hw.fifo, Pushed(before), Popped(t, ins[..m], depth), v.hw.fifo, Pushed(after),
                  if ins[m].pop && v.hw.fifo != [] then [v.hw.fifo[0]] else [], u.hw.fifo);
    }
  }
}

/**
 The same for the decipher path, where the sink may have to wait for the key buffer first.
 */
module DecipherDelivery {
  import opened AxisStream
  import opened DecipherPath
  import Core = InvCipherCore
  import KeySchedule
  import Runs
  import Sink = DecipherSink
  import Source = AxisSource

  /** The block, and nothing else, is captured between two points of a run, under the key in force. */
  predicate Captures(t: Trace, u: Trace, b: Beat) {
    && |u.captures| == |t.captures| + 1 && u.captures[..|t.captures|] == t.captures
    && u.captures[|t.captures|].block == b && u.captures[|t.captures|].key == t.key
  }

  /** The same block on offer, no key request and no reset of the FIFO. */
  predicate Holds(i: Input, b: Beat) {
    i.resetn && i.offer == Some(b) && !i.ctrl && !i.config
  }

  /** The FIFO has room, or a word is taken out of it. */
  predicate Drains(h: Hardware, i: Input, depth: nat) {
    i.pop || |h.fifo| < depth
  }

  /** An upper bound for the edges that still have to drain the FIFO before the sink captures. */
  function Distance(t: Trace, depth: nat): nat
    requires CoreOk(t)
  {
    var h := t.hw;
    var full := if |h.fifo| < depth then 0 else 1;
    if h.sink.state == Sink.S1 then 20 - Age(t)
    else if h.sink.state == Sink.S2 then 19 - KeyAge(t)
    else if !h.source.busy then 1
    else
      match h.source.state
      case S0 => 2 + full
      case S1 => 3
      case S2 => 4 + full
  }

  lemma FifoDrains(h: Hardware, i: Input, depth: nat)
    requires |h.fifo| <= depth && depth >= 1 && !FifoReset(i)
    ensures |h.fifo| < depth <==> Ready(h, i, depth)
    ensures !Enters(h, i, depth) ==> |NextFifo(h, i, depth)| <= |h.fifo|
    ensures i.pop && |h.fifo| == depth ==> |NextFifo(h, i, depth)| < depth
  {
  }

  lemma SinkWaits(t: Trace, i: Input, b: Beat, depth: nat)
    requires t.hw.sink.state == Sink.S1 && t.hw.sink.setupDone && Holds(i, b)
    ensures var t' := Step(t, i, depth);
      && t'.hw.sink.setupDone && t'.key == t.key && t'.captures == t.captures && t'.now == t.now + 1
      && t'.hw.sink.state == if t.hw.core.done then Sink.S0 else Sink.S1
  {
    hide Core.Step, NextFifo, Source.Step, KeySchedule.Schedule;
  }

  /** While the core works the sink captures nothing, and it is done in time. */
  lemma ApproachesInSink(t: Trace, i: Input, b: Beat, depth: nat)
    requires Inv(t, depth) && t.hw.sink.state == Sink.S1 && Holds(i, b)
    requires CoreOk(Step(t, i, depth))
    ensures var t' := Step(t, i, depth);
      t'.hw.sink.setupDone && t'.key == t.key && t'.captures == t.captures && Distance(t', depth) < Distance(t, depth)
  {
    hide Step, StreamOk, SourceOk, KeyedOk, Core.Busy, Core.Idle, Core.Loaded;
    assert |t.captures| > 0 && Age(t) <= 14 && t.hw.sink.setupDone;
    hide CoreOk;
    SinkWaits(t, i, b, depth);
    if Age(t) == 14 {
      NotDoneMeansBusy(t);
    }
  }

  lemma KeyIsLoading(t: Trace)
    requires CoreOk(t) && t.hw.sink.state == Sink.S2
    ensures t.hw.sink.setupDone && 0 <= KeyAge(t) <= 13 && (KeyAge(t) == 13 ==> t.hw.core.kdone)
  {
    hide Core.Filling, Core.Loaded, Core.Busy, Core.Idle, Core.AtRest, KeySchedule.Schedule;
    if KeyAge(t) == 13 {
      Core.FillingShows(t.hw.core, t.hw.sink.key, 11);
    }
  }

  lemma SinkAwaitsBuffer(t: Trace, i: Input, b: Beat, depth: nat)
    requires t.hw.sink.state == Sink.S2 && t.hw.sink.setupDone && Holds(i, b)
    ensures var t' := Step(t, i, depth);
      && t'.hw.sink.setupDone && t'.key == t.key && t'.captures == t.captures
      && t'.now == t.now + 1 && t'.keyAt == t.keyAt
      && t'.hw.sink.state == if t.hw.core.kdone then Sink.S0 else Sink.S2
  {
    hide Core.Step, NextFifo, Source.Step, KeySchedule.Schedule;
  }

  /** While the key buffer fills the sink captures nothing, and it is full in time. */
  lemma ApproachesInKeyLoad(t: Trace, i: Input, b: Beat, depth: nat)
    requires CoreOk(t) && t.hw.sink.state == Sink.S2 && Holds(i, b)
    requires CoreOk(Step(t, i, depth))
    ensures var t' := Step(t, i, depth);
      t'.hw.sink.setupDone && t'.key == t.key && t'.captures == t.captures && Distance(t', depth) < Distance(t, depth)
  {
    hide Step, CoreOk;
    KeyIsLoading(t);
    SinkAwaitsBuffer(t, i, b, depth);
  }

  /** With the sink free, the block is captured if the source is not busy; if it is, it gets rid of
      its word. */
  lemma ApproachesAtRest(t: Trace, i: Input, b: Beat, depth: nat)
    requires Inv(t, depth) && t.hw.sink.state == Sink.S0 && t.hw.sink.setupDone && Holds(i, b) && depth >= 1
    requires CoreOk(Step(t, i, depth))
    ensures var t' := Step(t, i, depth);
      && t'.hw.sink.setupDone && t'.key == t.key
      && if !t.hw.source.busy then Captures(t, t', b)
         else
           && t'.captures == t.captures && Distance(t', depth) <= Distance(t, depth)
           && (Drains(t.hw, i, depth) ==> Distance(t', depth) < Distance(t, depth))
  {
    hide Core.Step, CoreOk, StreamOk, KeyedOk, NextFifo, Ready, KeySchedule.Schedule;
    if t.hw.core.done {
      DoneMeansDeciphered(t);
    }
    FifoDrains(t.hw, i, depth);
  }

  lemma Approaches(t: Trace, i: Input, b: Beat, depth: nat)
    requires Inv(t, depth) && t.hw.sink.setupDone && Holds(i, b) && depth >= 1
    ensures var t' := Step(t, i, depth);
      && Inv(t', depth) && t'.hw.sink.setupDone && t'.key == t.key
      && (Captures(t, t', b) ||
           (t'.captures == t.captures && Distance(t', depth) <= Distance(t, depth)
            && (Drains(t.hw, i, depth) ==> Distance(t', depth) < Distance(t, depth))))
  {
    InvKept(t, i, depth);
    hide Step, CoreOk, SourceOk, StreamOk, KeyedOk, Distance, Captures;
    match t.hw.sink.state
    case S0 => ApproachesAtRest(t, i, b, depth);
    case S1 => ApproachesInSink(t, i, b, depth);
    case S2 => ApproachesInKeyLoad(t, i, b, depth);
  }

  /** A source at rest and room in the FIFO: the block on offer is captured within two edges. */
  lemma CapturedInTwoEdges(t: Trace, i: Input, j: Input, b: Beat, depth: nat)
    requires Inv(t, depth) && t.hw.sink.state == Sink.S0 && t.hw.sink.setupDone && t.hw.source.state == Source.S0
    requires Ready(t.hw, i, depth) && Holds(i, b) && Holds(j, b)
    ensures Captures(t, Step(Step(t, i, depth), j, depth), b)
  {
    var u := Step(t, i, depth);
    InvKept(t, i, depth);
    InvKept(u, j, depth);
    ApproachesAtRest(t, i, b, depth);
    NotBusyWithRoom(t, i, b, depth);
    hide Step, CoreOk, SourceOk, StreamOk, KeyedOk, Distance;
    if u.hw.sink.state == Sink.S1 {
      SinkWaits(u, j, b, depth);
    } else {
      ApproachesAtRest(u, j, b, depth);
    }
  }

  lemma NotBusyWithRoom(t: Trace, i: Input, b: Beat, depth: nat)
    requires CoreOk(t) && t.hw.sink.state == Sink.S0 && t.hw.sink.setupDone && t.hw.source.state == Source.S0
    requires Ready(t.hw, i, depth) && Holds(i, b)
    ensures var h := Step(t, i, depth).hw;
      !h.source.busy && (h.sink.state == Sink.S1 <==> !t.hw.source.busy)
  {
    hide Core.Step, CoreOk, NextFifo, KeySchedule.Schedule;
  }

  /** How many edges of a run find the FIFO with room or drain it. */
  function Drained(t: Trace, ins: seq<Input>, depth: nat): nat {
    if ins == [] then 0
    else
      var n := |ins| - 1;
      Drained(t, ins[..n], depth) + if Drains(Run(t, ins[..n], depth).hw, ins[n], depth) then 1 else 0
  }

  lemma {:induction false} CapturedOrCloser(t: Trace, ins: seq<Input>, b: Beat, depth: nat)
    requires Inv(t, depth) && t.hw.sink.setupDone && depth >= 1
    requires forall n :: 0 <= n < |ins| ==> Holds(ins[n], b)
    ensures var u := Run(t, ins, depth);
      || (exists n :: 0 <= n <= |ins| && Captures(t, Run(t, ins[..n], depth), b))
      || (Inv(u, depth) && u.hw.sink.setupDone && u.key == t.key && u.captures == t.captures
          && Distance(u, depth) + Drained(t, ins, depth) <= Distance(t, depth))
  {
    hide Step, Inv, Drains, Holds, Distance;
    if ins != [] {
      var m := |ins| - 1;
      CapturedOrCloser(t, ins[..m], b, depth);
      if n :| 0 <= n <= m && Captures(t, Run(t, ins[..m][..n], depth), b) {
        assert ins[..m][..n] == ins[..n];
      } else {
        Approaches(Run(t, ins[..m], depth), ins[m], b, depth);
        assert ins[..|ins|] == ins;
      }
    }
  }

  lemma DistanceBounds(t: Trace, depth: nat)
    requires CoreOk(t)
    ensures 1 <= Distance(t, depth) <= 20
  {
    hide Core.Busy, Core.Idle, Core.Loaded, Core.Filling, Core.AtRest, KeySchedule.Schedule;
  }

  /** A block held on offer is captured, and nothing before it, by the time that twenty edges have
      found the FIFO with room or drained it. */
  lemma HeldBlockIsCaptured(t: Trace, ins: seq<Input>, b: Beat, depth: nat)
    requires Inv(t, depth) && t.hw.sink.setupDone && depth >= 1
    requires forall n :: 0 <= n < |ins| ==> Holds(ins[n], b)
    requires Drained(t, ins, depth) >= 20
    ensures exists n :: 0 <= n <= |ins| && Captures(t, Run(t, ins[..n], depth), b)
  {
    hide Run, Drained, Captures, CoreOk, SourceOk, StreamOk, KeyedOk, Holds, Distance;
    CapturedOrCloser(t, ins, b, depth);
    DistanceBounds(t, depth);
    if CoreOk(Run(t, ins, depth)) {
      DistanceBounds(Run(t, ins, depth), depth);
    }
  }

  lemma {:induction false} AllDrained(t: Trace, ins: seq<Input>, depth: nat)
    requires forall n :: 0 <= n < |ins| ==> Drains(Run(t, ins[..n], depth).hw, ins[n], depth)
    ensures Drained(t, ins, depth) == |ins|
  {
    hide Run, Drains;
    if ins != [] {
      var m := |ins| - 1;
      forall n | 0 <= n < m
        ensures Drains(Run(t, ins[..m][..n], depth).hw, ins[..m][n], depth)
      {
        assert ins[..m][..n] == ins[..n];
      }
      AllDrained(t, ins[..m], depth);
    }
  }

  /** With the FIFO drained at every edge, that is within twenty edges from any reachable state. */
  lemma CapturedWithinTwenty(t: Trace, ins: seq<Input>, b: Beat, depth: nat)
    requires Inv(t, depth) && t.hw.sink.setupDone && depth >= 1 && |ins| == 20
    requires forall n :: 0 <= n < 20 ==> Holds(ins[n], b) && ins[n].pop
    ensures exists n :: 0 <= n <= 20 && Captures(t, Run(t, ins[..n], depth), b)
  {
    hide Run, Inv, Holds, Captures;
    AllDrained(t, ins, depth);
    HeldBlockIsCaptured(t, ins, b, depth);
  }

  // ----- what leaves the FIFO

  /** The words taken out of the FIFO along a run. */
  function Popped(t: Trace, ins: seq<Input>, depth: nat): seq<Beat> {
    if ins == [] then []
    else
      var n := |ins| - 1;
      var h := Run(t, ins[..n], depth).hw;
      Popped(t, ins[..n], depth) + if ins[n].pop && h.fifo != [] then [h.fifo[0]] else []
  }

  lemma FifoMoves(t: Trace, i: Input, depth: nat)
    requires !FifoReset(i)
    ensures t.pushes <= Step(t, i, depth).pushes
    ensures var h, t' := t.hw, Step(t, i, depth);
      h.fifo + Pushed(t'.pushes[|t.pushes|..]) == (if i.pop && h.fifo != [] then [h.fifo[0]] else []) + t'.hw.fifo
  {
    hide Core.Step, Sink.Step, Source.Step, KeySchedule.Schedule;
  }

  /** Without a reset of the FIFO, what left it followed by what it holds is what it held followed by
      what entered it. */
  lemma {:induction false} FifoIsAQueue(t: Trace, ins: seq<Input>, depth: nat)
    requires forall n :: 0 <= n < |ins| ==> !FifoReset(ins[n])
    ensures var u := Run(t, ins, depth);
      && |t.pushes| <= |u.pushes|
      && t.hw.fifo + Pushed(u.pushes[|t.pushes|..]) == Popped(t, ins, depth) + u.hw.fifo
  {
    hide Step, Pushed, FifoReset;
    if ins == [] {
      assert t.pushes[|t.pushes|..] == [];
    } else {
      var m := |ins| - 1;
      var v, u := Run(t, ins[..m], depth), Run(t, ins, depth);
      FifoIsAQueue(t, ins[..m], depth);
      FifoMoves(v, ins[m], depth);
      var before, after := v.pushes[|t.pushes|..], u.pushes[|v.pushes|..];
      assert u.pushes[|t.pushes|..] == before + after;
      PushedConcat(before, after);
      QueuesChain(t.hw.fifo, Pushed(before), Popped(t, ins[..m], depth), v.hw.fifo, Pushed(after),
                  if ins[m].pop && v.hw.fifo != [] then [v.hw.fifo[0]] else [], u.hw.fifo);
    }
  }
}
