/** What travels on an AXI-Stream. */
module AxisStream {
  import opened AesRounds

  /** One transfer: the word and its TLAST. */
  datatype Beat = Beat(data: Block, last: bool)

  /** What TVALID, TDATA and TLAST show at one edge. */
  datatype Offer = None | Some(beat: Beat)

  /** A word that entered a FIFO, and the number of the edge. */
  datatype Push = Push(beat: Beat, at: nat)

  function Pushed(ps: seq<Push>): (bs: seq<Beat>)
    ensures |bs| == |ps|
  {
    seq(|ps|, i requires 0 <= i < |ps| => ps[i].beat)
  }

  lemma PushedGrows(ps: seq<Push>, p: Push)
    ensures Pushed(ps + [p]) == Pushed(ps) + [p.beat]
  {
  }

  lemma PushedConcat(ps: seq<Push>, qs: seq<Push>)
    ensures Pushed(ps + qs) == Pushed(ps) + Pushed(qs)
  {
  }

  /** What a queue held and took in is what it gave out and holds, over two stretches of time. */
  lemma QueuesChain(f: seq<Beat>, xs: seq<Beat>, ys: seq<Beat>, f': seq<Beat>, xs': seq<Beat>, ys': seq<Beat>,
                    f'': seq<Beat>)
    requires f + xs == ys + f' && f' + xs' == ys' + f''
    ensures f + (xs + xs') == (ys + ys') + f''
  {
    calc {
      f + (xs + xs');
      (f + xs) + xs';
      (ys + f') + xs';
      ys + (f' + xs');
      ys + (ys' + f'');
      (ys + ys') + f'';
    }
  }

  // ----- taking and acknowledging

  /** Both ends of a stream: the beats acknowledged, the beat on offer that has not been, and the
      beats that the sink took. */
  datatype Ledger = Ledger(acked: seq<Beat>, held: Offer, taken: seq<Beat>)

  const NOTHING_YET := Ledger([], None, [])

  /** One edge: `ready` is TREADY, `takes` whether the sink stores the beat on offer. */
  function Booked(l: Ledger, ready: bool, takes: bool, offer: Offer): Ledger {
    Ledger(
      if offer.Some? && ready then l.acked + [offer.beat] else l.acked,
      if ready then None else offer,
      if offer.Some? && takes then l.taken + [offer.beat] else l.taken
    )
  }

  /** A source keeps a beat on offer until it is acknowledged. */
  predicate Keeps(l: Ledger, offer: Offer) {
    l.held.Some? ==> offer == l.held
  }

  /** A beat that was taken before TREADY rose for it. */
  function Pending(l: Ledger, ready: bool): seq<Beat> {
    if l.held.Some? && ready then [l.held.beat] else []
  }

  /** What was taken is what was acknowledged or is about to be. */
  predicate Balanced(l: Ledger, ready: bool) {
    l.taken == l.acked + Pending(l, ready)
  }

  /** TREADY acknowledges a fresh beat that is not taken, or one that is taken a second time. */
  predicate Slips(l: Ledger, ready: bool, takes: bool, offer: Offer) {
    offer.Some? && ready && (l.held.Some? <==> takes)
  }

  /** For a sink that raises TREADY for a beat it was not ready for exactly when it takes it, the
      books stay balanced exactly at the edges that do not slip. */
  lemma BalancedIffNoSlip(l: Ledger, ready: bool, takes: bool, offer: Offer, ready': bool)
    requires Balanced(l, ready) && Keeps(l, offer)
    requires offer.Some? && !ready ==> (ready' <==> takes)
    ensures Balanced(Booked(l, ready, takes, offer), ready') <==> !Slips(l, ready, takes, offer)
  {
    var l' := Booked(l, ready, takes, offer);
    if Slips(l, ready, takes, offer) {
      assert |l'.taken| != |l'.acked|;
    }
  }

  /** Fewer beats were taken than acknowledged: some are lost for good. */
  predicate Short(l: Ledger, ready: bool) {
    |l.taken| < |l.acked| + |Pending(l, ready)|
  }

  /** A sink that never takes a beat twice: a slip leaves it short, and it stays short. */
  lemma SlipsAddUp(l: Ledger, ready: bool, takes: bool, offer: Offer, ready': bool)
    requires Keeps(l, offer) && !(l.held.Some? && ready && takes)
    requires offer.Some? && !ready ==> (ready' <==> takes)
    ensures var l' := Booked(l, ready, takes, offer);
      && (Short(l, ready) ==> Short(l', ready'))
      && (Balanced(l, ready) ==> if Slips(l, ready, takes, offer) then Short(l', ready') else Balanced(l', ready'))
  {
    if Balanced(l, ready) {
      BalancedIffNoSlip(l, ready, takes, offer, ready');
    }
  }
}

/**
 The AXI-Stream source `M_AXIS_cipher` (and `M_AXIS_decipher`, which is the same machine): it
 takes a result when the core raises `done`, waits for room, and offers the word for one clock.
 */
module AxisSource {
  import opened AesRounds
  import opened AxisStream

  datatype State = S0 | S1 | S2

  datatype Regs = Regs(state: State, busy: bool, tvalid: bool, tdata: Block, tlast: bool)

  /** One rising clock edge; `tready` is the sink's. */
  function Step(r: Regs, resetn: bool, valid: bool, data: Block, last: bool, tready: bool): Regs {
    if !resetn then
      Regs(S0, false, false, ZERO_BLOCK, false)
    else
      match r.state
      case S0 =>
        Regs(if !valid then S0 else if tready then S1 else S2, !tready, false,
             if valid then data else r.tdata, valid && last)
      case S1 =>
        r.(state := S0, tvalid := true, busy := true)
      case S2 =>
        r.(state := if tready then S1 else S2, busy := true)
  }

  /** The words the source has taken and not yet had on offer for a full clock. */
  function Held(r: Regs): seq<Beat> {
    if r.tvalid || r.state != S0 then [Beat(r.tdata, r.tlast)] else []
  }

  /** What the registers obey between edges. Not being busy means the source can take a word
      sixteen edges later at the earliest without still holding this one. */
  predicate Ok(r: Regs) {
    && (r.state != S0 ==> !r.tvalid)
    && (r.state == S2 ==> r.busy)
    && (r.tvalid ==> r.busy)
  }

  /** A reset leaves the source empty, not busy and with nothing on offer. */
  lemma ResetIsEmpty(r: Regs, valid: bool, data: Block, last: bool, tready: bool)
    ensures var r' := Step(r, false, valid, data, last, tready);
      Ok(r') && Held(r') == [] && !r'.busy && !r'.tvalid && !r'.tlast
  {
  }

  /** No word is lost or doubled: a word leaves exactly when it has been on offer for a clock,
      and a new one is taken exactly when the core says so, provided the source is at rest. */
  lemma HeldIsAQueue(r: Regs, valid: bool, data: Block, last: bool, tready: bool)
    requires Ok(r)
    requires valid ==> r.state == S0
    ensures var r' := Step(r, true, valid, data, last, tready);
      && Ok(r')
      && Held(r') == (if r.tvalid then [] else Held(r)) + (if valid then [Beat(data, last)] else [])
  {
  }

  /** A word is offered only after room was seen two edges before, and for one clock. */
  lemma OffersOnlyAfterRoom(r: Regs, valid: bool, data: Block, last: bool, tready: bool)
    requires Ok(r)
    ensures var r' := Step(r, true, valid, data, last, tready);
      && (r'.state == S1 ==> tready && r.state != S1)
      && (r'.tvalid <==> r.state == S1)
  {
  }

  /** `AXI_aes_core_v1_0_M_AXIS_cipher`. */
  class MAxis {
    var state: State
    var busy: bool
    var tvalid: bool
    var tdata: Block
    var tlast: bool

    constructor ()
      ensures state == S0
    {
      state := S0;
    }

    ghost function Registers(): Regs
      reads this
    {
      Regs(state, busy, tvalid, tdata, tlast)
    }

    method Edge(resetn: bool, dataValid: bool, data: Block, dataLast: bool, tready: bool)
      modifies this
      ensures Registers() == Step(old(Registers()), resetn, dataValid, data, dataLast, tready)
    {
      if !resetn {
        tvalid := false;
        tdata := ZERO_BLOCK;
        tlast := false;
        busy := false;
        state := S0;
      } else {
        match state {
          case S0 =>
            tvalid := false;
            tlast := false;
            busy := !tready;
            if dataValid && tready {
              tdata := data;
              tlast := dataLast;
              state := S1;
            } else if dataValid {
              tdata := data;
              tlast := dataLast;
              state := S2;
            } else {
              state := S0;
            }
          case S1 =>
            tvalid := true;
            busy := true;
            state := S0;
          case S2 =>
            busy := true;
            if tready {
              state := S1;
            } else {
              state := S2;
            }
        }
      }
    }
  }
}
