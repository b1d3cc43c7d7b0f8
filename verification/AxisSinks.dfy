/**
 The AXI-Stream sink of the cipher path, `S_AXIS_cipher`: it captures a key when one is
 requested and otherwise a block at a time, and holds the block until the core has finished.
 */
module CipherSink {
  import opened AesRounds
  import opened AxisStream
  import Runs

  datatype State = S0 | S1

  datatype Regs = Regs(
    state: State,
    setupDone: bool,
    tready: bool,
    dataValid: bool,
    dataLast: bool,
    data: Block,
    key: Block,
    discard: bool
  )

  /** The input wires at one edge. `ctrl` is the key-request pulse, `busy` says that the source
      cannot take another result. */
  datatype Wires = Wires(resetn: bool, ctrl: bool, finished: bool, busy: bool, offer: Offer)

  predicate SetupNeeded(r: Regs, i: Wires) {
    i.ctrl || !r.setupDone
  }

  /** A key is taken from the stream at this edge. */
  predicate CapturesKey(r: Regs, i: Wires) {
    i.resetn && SetupNeeded(r, i) && i.offer.Some? && (r.state == S0 || i.finished)
  }

  /** A block is taken from the stream at this edge: TREADY plays no part. */
  predicate CapturesBlock(r: Regs, i: Wires) {
    i.resetn && r.state == S0 && !SetupNeeded(r, i) && !i.busy && i.offer.Some?
  }

  /** One rising clock edge. */
  function Step(r: Regs, i: Wires): Regs {
    var setupNeeded := SetupNeeded(r, i);
    if !i.resetn then
      Regs(S0, true, false, false, false, r.data, ZERO_BLOCK, false)
    else if r.state == S0 then
      var r' := r.(tready := setupNeeded || !i.busy, dataValid := false, dataLast := false, discard := false);
      if setupNeeded then
        if i.offer.Some? then r'.(setupDone := true, key := i.offer.beat.data) else r'.(setupDone := false)
      else if !i.busy && i.offer.Some? then
        r'.(data := i.offer.beat.data, dataLast := i.offer.beat.last, state := S1)
      else r'
    else if setupNeeded then
      var r' := r.(dataValid := false, discard := true);
      if !i.finished then r'.(setupDone := false, tready := false)
      else if i.offer.Some? then r'.(setupDone := true, tready := true, key := i.offer.beat.data, state := S0)
      else r'.(setupDone := false, tready := true, state := S0)
    else
      r.(tready := false, dataValid := true, discard := false, state := if i.finished then S0 else S1)
  }

  // ----- captures and acknowledgements

  /** The beat on offer is stored, as a key or as a block. */
  predicate Takes(r: Regs, i: Wires) {
    CapturesKey(r, i) || CapturesBlock(r, i)
  }

  /** TREADY rises for a beat that was not acknowledged exactly when the beat is taken. */
  lemma ReadyFollowsTaking(r: Regs, i: Wires)
    requires i.resetn && i.offer.Some? && !r.tready
    ensures Step(r, i).tready <==> Takes(r, i)
  {
  }

  /** What is taken is what is stored, in the register it is meant for, and nothing else is; a request
      is remembered until its key has come. */
  lemma TakingStores(r: Regs, i: Wires)
    requires i.resetn
    ensures var r' := Step(r, i);
      && r'.key == (if CapturesKey(r, i) then i.offer.beat.data else r.key)
      && r'.data == (if CapturesBlock(r, i) then i.offer.beat.data else r.data)
      && (CapturesBlock(r, i) ==> r'.dataLast == i.offer.beat.last)
      && (r'.setupDone <==> CapturesKey(r, i) || (r.setupDone && !i.ctrl))
    ensures Step(r, i).state == S1 <==> CapturesBlock(r, i) || (r.state == S1 && !i.finished)
  {
  }

  /** A sink facing a source that has the beats of a stream to send. */
  datatype Faced = Faced(sink: Regs, book: Ledger)

  /** What the rest of the system does at one edge; `pause` is the source's wish not to offer. */
  datatype Pressure = Pressure(ctrl: bool, finished: bool, busy: bool, pause: bool)

  /** The source offers its next beat unless it pauses, and keeps it on offer until acknowledged. */
  function FacedWires(s: Faced, stream: nat -> Beat, p: Pressure): Wires {
    Wires(true, p.ctrl, p.finished, p.busy,
          if s.book.held.Some? then s.book.held else if p.pause then None else Some(stream(|s.book.acked|)))
  }

  function FacedStep(s: Faced, stream: nat -> Beat, p: Pressure): Faced {
    var i := FacedWires(s, stream, p);
    Faced(Step(s.sink, i), Booked(s.book, s.sink.tready, Takes(s.sink, i), i.offer))
  }

  function Facing(stream: nat -> Beat): (Faced, Pressure) -> Faced {
    (s, p) => FacedStep(s, stream, p)
  }

  function FacedRun(s: Faced, stream: nat -> Beat, ps: seq<Pressure>): Faced {
    Runs.Run(Facing(stream), s, ps)
  }

  predicate InBalance(s: Faced) {
    Balanced(s.book, s.sink.tready)
  }

  predicate SlipsAt(s: Faced, stream: nat -> Beat, p: Pressure) {
    var i := FacedWires(s, stream, p); Slips(s.book, s.sink.tready, Takes(s.sink, i), i.offer)
  }

  lemma InBalanceIffNoSlip(s: Faced, stream: nat -> Beat, p: Pressure)
    requires InBalance(s)
    ensures InBalance(FacedStep(s, stream, p)) <==> !SlipsAt(s, stream, p)
  {
    var i := FacedWires(s, stream, p);
    if i.offer.Some? && !s.sink.tready {
      ReadyFollowsTaking(s.sink, i);
    }
    hide Step, Takes;
    BalancedIffNoSlip(s.book, s.sink.tready, Takes(s.sink, i), i.offer, Step(s.sink, i).tready);
  }

  /** Under any pausing, key requests and back-pressure: what is taken is what is acknowledged all
      along a run if and only if no edge of it slips. */
  lemma InBalanceAlongIff(s: Faced, stream: nat -> Beat, ps: seq<Pressure>)
    requires InBalance(s)
    ensures (forall n :: 0 <= n <= |ps| ==> InBalance(FacedRun(s, stream, ps[..n])))
       <==> (forall n :: 0 <= n < |ps| ==> !SlipsAt(FacedRun(s, stream, ps[..n]), stream, ps[n]))
  {
    hide FacedStep, InBalance, SlipsAt;
    if forall n :: 0 <= n < |ps| ==> !SlipsAt(FacedRun(s, stream, ps[..n]), stream, ps[n]) {
      forall n | 0 <= n <= |ps|
        ensures InBalance(FacedRun(s, stream, ps[..n]))
      {
        NoSlipSoFar(s, stream, ps, n);
      }
    } else {
      var n :| 0 <= n < |ps| && SlipsAt(FacedRun(s, stream, ps[..n]), stream, ps[n]);
      Runs.RunGrows(Facing(stream), s, ps, n);
      if InBalance(FacedRun(s, stream, ps[..n])) {
        InBalanceIffNoSlip(FacedRun(s, stream, ps[..n]), stream, ps[n]);
      }
    }
  }

  lemma {:induction false} NoSlipSoFar(s: Faced, stream: nat -> Beat, ps: seq<Pressure>, n: nat)
    requires InBalance(s) && n <= |ps|
    requires forall k :: 0 <= k < |ps| ==> !SlipsAt(FacedRun(s, stream, ps[..k]), stream, ps[k])
    ensures InBalance(FacedRun(s, stream, ps[..n]))
  {
    hide FacedStep, InBalance, SlipsAt;
    if n > 0 {
      NoSlipSoFar(s, stream, ps, n - 1);
      Runs.RunGrows(Facing(stream), s, ps, n - 1);
      InBalanceIffNoSlip(FacedRun(s, stream, ps[..n - 1]), stream, ps[n - 1]);
    }
  }

  // ----- a source that always offers

  /** No key requests, and no pauses. */
  predicate Steady(ps: seq<Pressure>) {
    forall p :: p in ps ==> !p.ctrl && !p.pause
  }

  /** TREADY is high only for a beat that has been taken. */
  predicate InStep(s: Faced) {
    && s.sink.setupDone
    && (s.sink.state == S0 ==> !s.sink.tready)
    && (s.sink.tready ==> s.book.held.Some?)
    && InBalance(s)
  }

  lemma InStepKept(s: Faced, stream: nat -> Beat, p: Pressure)
    requires InStep(s) && !p.ctrl && !p.pause
    ensures InStep(FacedStep(s, stream, p))
  {
    InBalanceIffNoSlip(s, stream, p);
  }

  lemma {:induction false} InStepAlong(s: Faced, stream: nat -> Beat, ps: seq<Pressure>)
    requires InStep(s) && Steady(ps)
    ensures InStep(FacedRun(s, stream, ps))
  {
    hide FacedStep, InStep;
    if ps != [] {
      InStepAlong(s, stream, ps[..|ps| - 1]);
      InStepKept(FacedRun(s, stream, ps[..|ps| - 1]), stream, ps[|ps| - 1]);
    }
  }

  const QUIET := Pressure(false, false, false, false)

  /** With TREADY high in S0, two edges acknowledge a beat that is never captured. */
  lemma EarlyReadyLosesABeat(r: Regs, stream: nat -> Beat)
    requires r.state == S0 && r.setupDone && r.tready
    ensures var s := FacedRun(Faced(r, NOTHING_YET), stream, [QUIET, QUIET]);
      s.book.acked == [stream(0), stream(1)] && s.book.taken == [stream(0)]
  {
    Runs.RunOfTwo(Facing(stream), Faced(r, NOTHING_YET), QUIET, QUIET);
  }

  /** A sink at rest in S0 takes exactly the beats it acknowledges from a source that always offers,
      whatever back-pressure it meets, if and only if its TREADY is low when the source starts. */
  lemma MatchesIffNotReady(r: Regs, stream: nat -> Beat)
    requires r.state == S0 && r.setupDone
    ensures (forall ps :: Steady(ps) ==> InBalance(FacedRun(Faced(r, NOTHING_YET), stream, ps))) <==> !r.tready
  {
    hide FacedRun;
    if r.tready {
      EarlyReadyLosesABeat(r, stream);
      assert Steady([QUIET, QUIET]);
      assert !InBalance(FacedRun(Faced(r, NOTHING_YET), stream, [QUIET, QUIET]));
    } else {
      forall ps | Steady(ps)
        ensures InBalance(FacedRun(Faced(r, NOTHING_YET), stream, ps))
      {
        InStepAlong(Faced(r, NOTHING_YET), stream, ps);
      }
    }
  }

  // ----- a key and then blocks

  /** A key has been requested and has not come. */
  predicate AwaitsKey(r: Regs) {
    r.state == S0 && !r.setupDone && r.tready
  }

  /** A request in S0 with nothing on offer leaves the sink awaiting the key until one is offered. */
  lemma RequestAwaitsKey(r: Regs, i: Wires)
    requires i.resetn && i.offer.None?
    requires AwaitsKey(r) || (r.state == S0 && i.ctrl)
    ensures AwaitsKey(Step(r, i))
  {
  }

  /** A source that goes on offering after the key: the second block is acknowledged and never
      captured. */
  lemma SecondBlockIsLost(r: Regs, stream: nat -> Beat)
    requires AwaitsKey(r)
    ensures var s := FacedRun(Faced(r, NOTHING_YET), stream, [QUIET, QUIET, QUIET]);
      s.book.acked == [stream(0), stream(1), stream(2)] && s.book.taken == [stream(0), stream(1)]
  {
    Runs.RunOfThree(Facing(stream), Faced(r, NOTHING_YET), QUIET, QUIET, QUIET);
  }

  /** A source sends a key and then blocks, and offers at every edge except, perhaps, the one right
      after the first block was acknowledged. What the sink takes is what it acknowledges, under
      any back-pressure from then on, if and only if there is room for the first block when it is
      offered and the source does pause there. */
  lemma KeyThenBlocksIff(r: Regs, stream: nat -> Beat, p: Pressure, q: Pressure, t: Pressure)
    requires AwaitsKey(r)
    requires !p.ctrl && !q.ctrl && !t.ctrl && !p.pause && !q.pause
    ensures (forall ps :: Steady(ps) ==> InBalance(FacedRun(Faced(r, NOTHING_YET), stream, [p, q, t] + ps)))
       <==> !q.busy && t.pause
  {
    var s := Faced(r, NOTHING_YET);
    var s' := FacedRun(s, stream, [p, q, t]);
    ThreeEdges(r, stream, p, q, t);
    hide FacedRun;
    if !q.busy && t.pause {
      forall ps | Steady(ps)
        ensures InBalance(FacedRun(s, stream, [p, q, t] + ps))
      {
        Runs.RunOn(Facing(stream), s, [p, q, t], ps);
        InStepAlong(s', stream, ps);
      }
    } else {
      assert Steady([]) && [p, q, t] + [] == [p, q, t];
      assert !InBalance(FacedRun(s, stream, [p, q, t] + []));
    }
  }

  lemma ThreeEdges(r: Regs, stream: nat -> Beat, p: Pressure, q: Pressure, t: Pressure)
    requires AwaitsKey(r)
    requires !p.ctrl && !q.ctrl && !t.ctrl && !p.pause && !q.pause
    ensures var s := FacedRun(Faced(r, NOTHING_YET), stream, [p, q, t]);
      if !q.busy && t.pause then InStep(s) else !InBalance(s)
  {
    Runs.RunOfThree(Facing(stream), Faced(r, NOTHING_YET), p, q, t);
  }

  /** `AXI_aes_core_v1_0_S_AXIS_cipher`. */
  class SAxisCipher {
    var state: State
    var setupDone: bool
    var tready: bool
    var dataValid: bool
    var dataLast: bool
    var data: Block
    var key: Block
    var discard: bool

    constructor ()
      ensures state == S0 && setupDone
    {
      state, setupDone := S0, true;
    }

    ghost function Registers(): Regs
      reads this
    {
      Regs(state, setupDone, tready, dataValid, dataLast, data, key, discard)
    }

    method Edge(resetn: bool, ctrl: bool, finished: bool, masterBusy: bool, offer: Offer)
      modifies this
      ensures Registers() == Step(old(Registers()), Wires(resetn, ctrl, finished, masterBusy, offer))
    {
      var setupNeeded := ctrl || !setupDone;
      if !resetn {
        tready := false;
        dataValid := false;
        dataLast := false;
        setupDone := true;
        key := ZERO_BLOCK;
        discard := false;
        state := S0;
      } else {
        match state {
          case S0 =>
            tready := setupNeeded || !masterBusy;
            dataValid := false;
            dataLast := false;
            discard := false;
            state := S0;
            if setupNeeded {
              if offer.Some? {
                setupDone := true;
                key := offer.beat.data;
              } else {
                setupDone := false;
              }
            } else if !masterBusy && offer.Some? {
              data := offer.beat.data;
              dataLast := offer.beat.last;
              state := S1;
            }
          case S1 =>
            tready := setupNeeded;
            if setupNeeded {
              dataValid := false;
              discard := true;
              if !finished {
                setupDone := false;
                tready := false;
                state := S1;
              } else {
                if offer.Some? {
                  setupDone := true;
                  key := offer.beat.data;
                } else {
                  setupDone := false;
                }
                state := S0;
              }
            } else {
              dataValid := true;
              discard := false;
              state := if finished then S0 else S1;
            }
        }
      }
    }
  }
}

/**
 The sink of the decipher path, `S_AXIS_decipher`: the same machine with a third state in which
 it waits for the key buffer of the inverse core to fill.
 */
module DecipherSink {
  import opened AesRounds
  import opened AxisStream
  import CipherSink
  import Runs

  datatype State = S0 | S1 | S2

  datatype Regs = Regs(
    state: State,
    setupDone: bool,
    tready: bool,
    dataValid: bool,
    dataLast: bool,
    data: Block,
    keyValid: bool,
    key: Block,
    discard: bool
  )

  datatype Wires = Wires(resetn: bool, ctrl: bool, kdone: bool, finished: bool, busy: bool, offer: Offer)

  predicate SetupNeeded(r: Regs, i: Wires) {
    i.ctrl || !r.setupDone
  }

  predicate CapturesKey(r: Regs, i: Wires) {
    i.resetn && SetupNeeded(r, i) && i.offer.Some? && (r.state == S0 || (r.state == S1 && i.finished))
  }

  predicate CapturesBlock(r: Regs, i: Wires) {
    i.resetn && r.state == S0 && !SetupNeeded(r, i) && !i.busy && i.offer.Some?
  }

  /** One rising clock edge. */
  function Step(r: Regs, i: Wires): Regs {
    var setupNeeded := SetupNeeded(r, i);
    if !i.resetn then
      Regs(S0, true, false, false, false, r.data, true, ZERO_BLOCK, false)
    else if r.state == S0 then
      var r' := r.(tready := setupNeeded || !i.busy, dataValid := false, dataLast := false, keyValid := true,
                   discard := false);
      if setupNeeded then
        if i.offer.Some? then r'.(setupDone := true, keyValid := false, key := i.offer.beat.data, state := S2)
        else r'.(setupDone := false)
      else if !i.busy && i.offer.Some? then
        r'.(data := i.offer.beat.data, dataLast := i.offer.beat.last, state := S1)
      else r'
    else if r.state == S1 then
      if setupNeeded then
        var r' := r.(dataValid := false, keyValid := true, discard := true);
        if !i.finished then r'.(setupDone := false, tready := false)
        else if i.offer.Some? then
          r'.(setupDone := true, tready := true, keyValid := false, key := i.offer.beat.data, state := S2)
        else r'.(setupDone := false, tready := true, state := S0)
      else
        r.(tready := false, dataValid := true, keyValid := true, discard := false,
           state := if i.finished then S0 else S1)
    else
      r.(tready := false, keyValid := i.kdone, state := if i.kdone then S0 else S2)
  }

  // ----- captures and acknowledgements

  /** The beat on offer is stored, as a key or as a block. */
  predicate Takes(r: Regs, i: Wires) {
    CapturesKey(r, i) || CapturesBlock(r, i)
  }

  /** TREADY rises for a beat that was not acknowledged exactly when the beat is taken. */
  lemma ReadyFollowsTaking(r: Regs, i: Wires)
    requires i.resetn && i.offer.Some? && !r.tready
    ensures Step(r, i).tready <==> Takes(r, i)
  {
  }

  /** What is taken is what is stored, in the register it is meant for, and nothing else is; a request
      outside S2 is remembered until its key has come. */
  lemma TakingStores(r: Regs, i: Wires)
    requires i.resetn
    ensures var r' := Step(r, i);
      && r'.key == (if CapturesKey(r, i) then i.offer.beat.data else r.key)
      && r'.data == (if CapturesBlock(r, i) then i.offer.beat.data else r.data)
      && (CapturesBlock(r, i) ==> r'.dataLast == i.offer.beat.last)
      && (r.state != S2 ==> (r'.setupDone <==> CapturesKey(r, i) || (r.setupDone && !i.ctrl)))
    ensures Step(r, i).state == S1 <==> CapturesBlock(r, i) || (r.state == S1 && !i.finished)
    ensures Step(r, i).state == S2 <==> CapturesKey(r, i) || (r.state == S2 && !i.kdone)
  {
  }

  /** `key_valid` is low from the edge that takes a key until the buffer of the core is full. */
  lemma KeyInvalidIff(r: Regs, i: Wires)
    requires i.resetn
    ensures !Step(r, i).keyValid <==> CapturesKey(r, i) || (r.state == S2 && !i.kdone)
  {
  }

  /** A sink facing a source that has the beats of a stream to send. */
  datatype Faced = Faced(sink: Regs, book: Ledger)

  /** What the rest of the system does at one edge; `pause` is the source's wish not to offer. */
  datatype Pressure = Pressure(ctrl: bool, kdone: bool, finished: bool, busy: bool, pause: bool)

  /** The source offers its next beat unless it pauses, and keeps it on offer until acknowledged. */
  function FacedWires(s: Faced, stream: nat -> Beat, p: Pressure): Wires {
    Wires(true, p.ctrl, p.kdone, p.finished, p.busy,
          if s.book.held.Some? then s.book.held else if p.pause then None else Some(stream(|s.book.acked|)))
  }

  function FacedStep(s: Faced, stream: nat -> Beat, p: Pressure): Faced {
    var i := FacedWires(s, stream, p);
    Faced(Step(s.sink, i), Booked(s.book, s.sink.tready, Takes(s.sink, i), i.offer))
  }

  function Facing(stream: nat -> Beat): (Faced, Pressure) -> Faced {
    (s, p) => FacedStep(s, stream, p)
  }

  function FacedRun(s: Faced, stream: nat -> Beat, ps: seq<Pressure>): Faced {
    Runs.Run(Facing(stream), s, ps)
  }

  predicate InBalance(s: Faced) {
    Balanced(s.book, s.sink.tready)
  }

  predicate SlipsAt(s: Faced, stream: nat -> Beat, p: Pressure) {
    var i := FacedWires(s, stream, p); Slips(s.book, s.sink.tready, Takes(s.sink, i), i.offer)
  }

  lemma InBalanceIffNoSlip(s: Faced, stream: nat -> Beat, p: Pressure)
    requires InBalance(s)
    ensures InBalance(FacedStep(s, stream, p)) <==> !SlipsAt(s, stream, p)
  {
    var i := FacedWires(s, stream, p);
    if i.offer.Some? && !s.sink.tready {
      ReadyFollowsTaking(s.sink, i);
    }
    hide Step, Takes;
    BalancedIffNoSlip(s.book, s.sink.tready, Takes(s.sink, i), i.offer, Step(s.sink, i).tready);
  }

  /** Under any pausing, key requests and back-pressure: what is taken is what is acknowledged all
      along a run if and only if no edge of it slips. */
  lemma InBalanceAlongIff(s: Faced, stream: nat -> Beat, ps: seq<Pressure>)
    requires InBalance(s)
    ensures (forall n :: 0 <= n <= |ps| ==> InBalance(FacedRun(s, stream, ps[..n])))
       <==> (forall n :: 0 <= n < |ps| ==> !SlipsAt(FacedRun(s, stream, ps[..n]), stream, ps[n]))
  {
    hide FacedStep, InBalance, SlipsAt;
    if forall n :: 0 <= n < |ps| ==> !SlipsAt(FacedRun(s, stream, ps[..n]), stream, ps[n]) {
      forall n | 0 <= n <= |ps|
        ensures InBalance(FacedRun(s, stream, ps[..n]))
      {
        NoSlipSoFar(s, stream, ps, n);
      }
    } else {
      var n :| 0 <= n < |ps| && SlipsAt(FacedRun(s, stream, ps[..n]), stream, ps[n]);
      Runs.RunGrows(Facing(stream), s, ps, n);
      if InBalance(FacedRun(s, stream, ps[..n])) {
        InBalanceIffNoSlip(FacedRun(s, stream, ps[..n]), stream, ps[n]);
      }
    }
  }

  lemma {:induction false} NoSlipSoFar(s: Faced, stream: nat -> Beat, ps: seq<Pressure>, n: nat)
    requires InBalance(s) && n <= |ps|
    requires forall k :: 0 <= k < |ps| ==> !SlipsAt(FacedRun(s, stream, ps[..k]), stream, ps[k])
    ensures InBalance(FacedRun(s, stream, ps[..n]))
  {
    hide FacedStep, InBalance, SlipsAt;
    if n > 0 {
      NoSlipSoFar(s, stream, ps, n - 1);
      Runs.RunGrows(Facing(stream), s, ps, n - 1);
      InBalanceIffNoSlip(FacedRun(s, stream, ps[..n - 1]), stream, ps[n - 1]);
    }
  }

  // ----- a source that always offers

  /** No key requests, and no pauses. */
  predicate Steady(ps: seq<Pressure>) {
    forall p :: p in ps ==> !p.ctrl && !p.pause
  }

  /** TREADY is high only for a beat that has been taken. */
  predicate InStep(s: Faced) {
    && s.sink.setupDone
    && (s.sink.state != S1 ==> !s.sink.tready)
    && (s.sink.tready ==> s.book.held.Some?)
    && InBalance(s)
  }

  lemma InStepKept(s: Faced, stream: nat -> Beat, p: Pressure)
    requires InStep(s) && !p.ctrl && !p.pause
    ensures InStep(FacedStep(s, stream, p))
  {
    InBalanceIffNoSlip(s, stream, p);
  }

  lemma {:induction false} InStepAlong(s: Faced, stream: nat -> Beat, ps: seq<Pressure>)
    requires InStep(s) && Steady(ps)
    ensures InStep(FacedRun(s, stream, ps))
  {
    hide FacedStep, InStep;
    if ps != [] {
      InStepAlong(s, stream, ps[..|ps| - 1]);
      InStepKept(FacedRun(s, stream, ps[..|ps| - 1]), stream, ps[|ps| - 1]);
    }
  }

  const QUIET := Pressure(false, false, false, false, false)

  // ----- a key and then blocks

  /** A key has been requested and has not come. */
  predicate AwaitsKey(r: Regs) {
    r.state == S0 && !r.setupDone && r.tready
  }

  /** A request in S0 with nothing on offer leaves the sink awaiting the key until one is offered. */
  lemma RequestAwaitsKey(r: Regs, i: Wires)
    requires i.resetn && i.offer.None?
    requires AwaitsKey(r) || (r.state == S0 && i.ctrl)
    ensures AwaitsKey(Step(r, i))
  {
  }

  /** A request is acted on, by taking the key or by waiting for it, if and only if it does not come
      in S2 with the previous key in place; there it leaves no trace. */
  lemma RequestActsIff(r: Regs, i: Wires)
    requires i.resetn && i.ctrl
    ensures (CapturesKey(r, i) || !Step(r, i).setupDone) <==> r.state != S2 || !r.setupDone
    ensures r.state == S2 ==> Step(r, i) == Step(r, i.(ctrl := false))
  {
  }

  /** A source that goes on offering after the key: the first block is acknowledged and never
      captured, because the sink waits for the key buffer with TREADY still high for one edge. */
  lemma FirstBlockIsLost(r: Regs, stream: nat -> Beat)
    requires AwaitsKey(r)
    ensures var s := FacedRun(Faced(r, NOTHING_YET), stream, [QUIET, QUIET]);
      s.book.acked == [stream(0), stream(1)] && s.book.taken == [stream(0)]
  {
    Runs.RunOfTwo(Facing(stream), Faced(r, NOTHING_YET), QUIET, QUIET);
  }

  /** A source sends a key and then blocks, and offers at every edge except, perhaps, the one right
      after the key was acknowledged. What the sink takes is what it acknowledges, under any
      back-pressure and whenever the key buffer fills, if and only if the source pauses there. */
  lemma KeyThenBlocksIff(r: Regs, stream: nat -> Beat, p: Pressure, q: Pressure)
    requires AwaitsKey(r)
    requires !p.ctrl && !q.ctrl && !p.pause
    ensures (forall ps :: Steady(ps) ==> InBalance(FacedRun(Faced(r, NOTHING_YET), stream, [p, q] + ps)))
       <==> q.pause
  {
    var s := Faced(r, NOTHING_YET);
    var s' := FacedRun(s, stream, [p, q]);
    TwoEdges(r, stream, p, q);
    hide FacedRun;
    if q.pause {
      forall ps | Steady(ps)
        ensures InBalance(FacedRun(s, stream, [p, q] + ps))
      {
        Runs.RunOn(Facing(stream), s, [p, q], ps);
        InStepAlong(s', stream, ps);
      }
    } else {
      assert Steady([]) && [p, q] + [] == [p, q];
      assert !InBalance(FacedRun(s, stream, [p, q] + []));
    }
  }

  lemma TwoEdges(r: Regs, stream: nat -> Beat, p: Pressure, q: Pressure)
    requires AwaitsKey(r)
    requires !p.ctrl && !q.ctrl && !p.pause
    ensures var s := FacedRun(Faced(r, NOTHING_YET), stream, [p, q]);
      if q.pause then InStep(s) else !InBalance(s)
  {
    Runs.RunOfTwo(Facing(stream), Faced(r, NOTHING_YET), p, q);
  }

  // ----- outside key loading it is the cipher sink

  /** The registers the two sinks share. */
  function Shared(r: Regs): CipherSink.Regs
    requires r.state != S2
  {
    CipherSink.Regs(if r.state == S0 then CipherSink.S0 else CipherSink.S1,
                    r.setupDone, r.tready, r.dataValid, r.dataLast, r.data, r.key, r.discard)
  }

  function SharedWires(i: Wires): CipherSink.Wires {
    CipherSink.Wires(i.resetn, i.ctrl, i.finished, i.busy, i.offer)
  }

  /** As long as no key is captured, the third state is never entered and the two sinks step
      and capture alike. */
  lemma StepsAsCipherSink(r: Regs, i: Wires)
    requires r.state != S2
    ensures CapturesKey(r, i) <==> CipherSink.CapturesKey(Shared(r), SharedWires(i))
    ensures CapturesBlock(r, i) <==> CipherSink.CapturesBlock(Shared(r), SharedWires(i))
    ensures !CapturesKey(r, i) ==>
      Step(r, i).state != S2 && Shared(Step(r, i)) == CipherSink.Step(Shared(r), SharedWires(i))
    ensures CapturesKey(r, i) ==> Step(r, i).state == S2
  {
  }

  /** `AXI_aes_core_v1_0_S_AXIS_decipher`. */
  class SAxisDecipher {
    var state: State
    var setupDone: bool
    var tready: bool
    var dataValid: bool
    var dataLast: bool
    var data: Block
    var keyValid: bool
    var key: Block
    var discard: bool

    constructor ()
      ensures state == S0 && setupDone
    {
      state, setupDone := S0, true;
    }

    ghost function Registers(): Regs
      reads this
    {
      Regs(state, setupDone, tready, dataValid, dataLast, data, keyValid, key, discard)
    }

    method Edge(resetn: bool, ctrl: bool, kdone: bool, finished: bool, masterBusy: bool, offer: Offer)
      modifies this
      ensures Registers() == Step(old(Registers()), Wires(resetn, ctrl, kdone, finished, masterBusy, offer))
    {
      var setupNeeded := ctrl || !setupDone;
      if !resetn {
        tready := false;
        dataValid := false;
        dataLast := false;
        setupDone := true;
        keyValid := true;
        key := ZERO_BLOCK;
        discard := false;
        state := S0;
      } else {
        match state {
          case S0 =>
            tready := setupNeeded || !masterBusy;
            dataValid := false;
            dataLast := false;
            keyValid := true;
            discard := false;
            state := S0;
            if setupNeeded {
              if offer.Some? {
                setupDone := true;
                keyValid := false;
                key := offer.beat.data;
                state := S2;
              } else {
                setupDone := false;
              }
            } else if !masterBusy && offer.Some? {
              data := offer.beat.data;
              dataLast := offer.beat.last;
              state := S1;
            }
          case S1 =>
            tready := setupNeeded;
            keyValid := true;
            if setupNeeded {
              dataValid := false;
              discard := true;
              if !finished {
                setupDone := false;
                tready := false;
                state := S1;
              } else {
                if offer.Some? {
                  setupDone := true;
                  keyValid := false;
                  key := offer.beat.data;
                  state := S2;
                } else {
                  setupDone := false;
                  state := S0;
                }
              }
            } else {
              dataValid := true;
              discard := false;
              state := if finished then S0 else S1;
            }
          case S2 =>
            tready := false;
            keyValid := false;
            if kdone {
              state := S0;
              keyValid := true;
            } else {
              state := S2;
            }
        }
      }
    }
  }
}
