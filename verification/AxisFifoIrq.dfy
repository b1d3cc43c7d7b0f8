/** `axis_fifo_irq`: the loop that handles one interrupt after another until none is pending. */
module AxisFifoIrq {
  type Reg = bv32

  const RPURE: Reg := 0x8000_0000
  const RPORE: Reg := 0x4000_0000
  const RPUE: Reg := 0x2000_0000
  const TPOE: Reg := 0x1000_0000
  const TC: Reg := 0x0800_0000
  const RC: Reg := 0x0400_0000
  const TSE: Reg := 0x0200_0000
  const TRC: Reg := 0x0100_0000
  const RRC: Reg := 0x0080_0000
  const TFPF: Reg := 0x0040_0000
  const TFPE: Reg := 0x0020_0000
  const RFPF: Reg := 0x0010_0000
  const RFPE: Reg := 0x0008_0000
  const ALL: Reg := 0xfff8_0000

  /** What handling an interrupt does: wake-ups, resets of one side of the core, and writes to the
      status register, which clear the bits written. */
  datatype Event = WakeReader | PollReaders | WakeWriter | PollWriters | ResetRx | ResetTx | Clear(mask: Reg)

  /** The order in which the handler looks at the bits. */
  const PRIORITY: seq<Reg> := [RC, TC, TFPF, TFPE, RFPF, RFPE, TRC, RRC, RPURE, RPORE, RPUE, TPOE, TSE]

  predicate Has(r: Reg, mask: Reg) {
    r & mask != 0
  }

  /** What a write of `mask` leaves of the status register. */
  function Cleared(r: Reg, mask: Reg): Reg {
    r & !mask
  }

  /** The bits that are set and enabled. */
  function Pending(isr: Reg, ier: Reg): Reg {
    isr & ier
  }

  /** What each interrupt calls for. */
  function Handling(mask: Reg): seq<Event> {
    if mask == RC then [WakeReader, PollReaders, Clear(RC)]
    else if mask == TC then [WakeWriter, PollWriters, Clear(TC)]
    else if mask == TFPE then [PollWriters, Clear(TFPE)]
    else if mask == RFPF then [PollReaders, Clear(RFPF)]
    else if mask == RPURE || mask == RPORE || mask == RPUE then [ResetRx, Clear(mask)]
    else if mask == TPOE then [ResetTx, Clear(TPOE)]
    else [Clear(mask)]
  }

  /** The pending interrupts of a list handled once each, in the order of the list. */
  function HandlingOf(masks: seq<Reg>, pending: Reg): seq<Event> {
    if masks == [] then []
    else (if Has(pending, masks[0]) then Handling(masks[0]) else []) + HandlingOf(masks[1..], pending)
  }

  /** How many interrupts of a list are pending. */
  function Count(masks: seq<Reg>, pending: Reg): nat {
    if masks == [] then 0 else (if Has(pending, masks[0]) then 1 else 0) + Count(masks[1..], pending)
  }

  /** The mask that one turn of the loop clears. */
  function Chosen(pending: Reg): Reg {
    if Has(pending, RC) then RC
    else if Has(pending, TC) then TC
    else if Has(pending, TFPF) then TFPF
    else if Has(pending, TFPE) then TFPE
    else if Has(pending, RFPF) then RFPF
    else if Has(pending, RFPE) then RFPE
    else if Has(pending, TRC) then TRC
    else if Has(pending, RRC) then RRC
    else if Has(pending, RPURE) then RPURE
    else if Has(pending, RPORE) then RPORE
    else if Has(pending, RPUE) then RPUE
    else if Has(pending, TPOE) then TPOE
    else if Has(pending, TSE) then TSE
    else if pending != 0 then ALL
    else 0
  }

  /** The interrupts of a list are distinct bits. */
  predicate Disjoint(masks: seq<Reg>) {
    forall i, j :: 0 <= i < j < |masks| ==> !Has(masks[i], masks[j])
  }

  lemma ClearDisjoint(pending: Reg, m: Reg, n: Reg)
    requires !Has(m, n)
    ensures Has(Cleared(pending, m), n) == Has(pending, n)
  {
  }

  /** Clearing a bit outside the list does not change what the list calls for. */
  lemma {:induction false} HandlingIgnores(masks: seq<Reg>, pending: Reg, m: Reg)
    requires forall i :: 0 <= i < |masks| ==> !Has(m, masks[i])
    ensures HandlingOf(masks, Cleared(pending, m)) == HandlingOf(masks, pending)
    ensures Count(masks, Cleared(pending, m)) == Count(masks, pending)
  {
    hide Has, Cleared, Handling;
    if masks != [] {
      ClearDisjoint(pending, m, masks[0]);
      HandlingIgnores(masks[1..], pending, m);
    }
  }

  /** Handling the first pending interrupt of a list and clearing it leaves the others. */
  lemma {:induction false} HandleFirst(masks: seq<Reg>, pending: Reg, k: nat)
    requires Disjoint(masks) && k < |masks| && Has(pending, masks[k])
    requires forall i :: 0 <= i < k ==> !Has(pending, masks[i])
    ensures HandlingOf(masks, pending) == Handling(masks[k]) + HandlingOf(masks, Cleared(pending, masks[k]))
    ensures Count(masks, pending) == 1 + Count(masks, Cleared(pending, masks[k]))
  {
    hide Has, Cleared, Handling;
    var m := masks[k];
    if k == 0 {
      ClearedIsClear(pending, m);
      HandlingIgnores(masks[1..], pending, m);
    } else {
      ClearKeepsClear(pending, m, masks[0]);
      HandleFirst(masks[1..], pending, k - 1);
    }
  }

  lemma ClearedIsClear(pending: Reg, m: Reg)
    ensures !Has(Cleared(pending, m), m)
  {
  }

  lemma ClearKeepsClear(pending: Reg, m: Reg, n: Reg)
    requires !Has(pending, n)
    ensures !Has(Cleared(pending, m), n)
  {
  }

  predicate SingleBit(m: Reg) {
    m & (m - 1) == 0
  }

  lemma SingleBitsAreApart(m: Reg, n: Reg)
    requires SingleBit(m) && SingleBit(n) && m != n
    ensures !Has(m, n)
  {
  }

  lemma PriorityIsDisjoint()
    ensures Disjoint(PRIORITY)
  {
    assert forall i :: 0 <= i < |PRIORITY| ==> SingleBit(PRIORITY[i]);
    assert forall i, j :: 0 <= i < j < |PRIORITY| ==> PRIORITY[i] != PRIORITY[j];
    hide Has, SingleBit;
    forall i, j | 0 <= i < j < |PRIORITY|
      ensures !Has(PRIORITY[i], PRIORITY[j])
    {
      SingleBitsAreApart(PRIORITY[i], PRIORITY[j]);
    }
  }

  /** With a known bit pending, the loop picks the first pending one in the order of priority. */
  lemma ChosenIsFirst(pending: Reg) returns (k: nat)
    requires Has(pending, ALL)
    ensures k < |PRIORITY| && Chosen(pending) == PRIORITY[k] && Has(pending, PRIORITY[k])
    ensures forall i :: 0 <= i < k ==> !Has(pending, PRIORITY[i])
  {
    KnownBits(pending);
    hide Has;
    k := if Has(pending, RC) then 0 else if Has(pending, TC) then 1 else if Has(pending, TFPF) then 2
      else if Has(pending, TFPE) then 3 else if Has(pending, RFPF) then 4 else if Has(pending, RFPE) then 5
      else if Has(pending, TRC) then 6 else if Has(pending, RRC) then 7 else if Has(pending, RPURE) then 8
      else if Has(pending, RPORE) then 9 else if Has(pending, RPUE) then 10 else if Has(pending, TPOE) then 11 else 12;
  }

  /** A packet received comes first, a packet sent second, and the errors and resets come only when
      neither they nor a level of either side is pending. */
  lemma CompletionsComeFirst(pending: Reg)
    ensures Has(pending, RC) ==> Chosen(pending) == RC
    ensures !Has(pending, RC) && Has(pending, TC) ==> Chosen(pending) == TC
    ensures Has(pending, TFPF) || Has(pending, TFPE) || Has(pending, RFPF) || Has(pending, RFPE) ==>
      Chosen(pending) in {RC, TC, TFPF, TFPE, RFPF, RFPE}
  {
    hide Has;
  }

  /** The known bits are the bits of ALL. */
  lemma KnownBits(pending: Reg)
    requires Has(pending, ALL)
    ensures Has(pending, RC) || Has(pending, TC) || Has(pending, TFPF) || Has(pending, TFPE) || Has(pending, RFPF)
      || Has(pending, RFPE) || Has(pending, TRC) || Has(pending, RRC) || Has(pending, RPURE) || Has(pending, RPORE)
      || Has(pending, RPUE) || Has(pending, TPOE) || Has(pending, TSE)
  {
  }

  // ----- what an interrupt calls for

  /** The write that clears a bit comes last, once the wake-ups and resets it calls for are done. */
  lemma ClearComesLast(mask: Reg)
    ensures var es := Handling(mask);
      es != [] && es[|es| - 1] == Clear(mask) && forall k :: 0 <= k < |es| - 1 ==> !es[k].Clear?
  {
  }

  /** Which bits call for what. */
  lemma CalledFor(mask: Reg)
    ensures var es := Handling(mask);
      && (WakeReader in es <==> mask == RC)
      && (WakeWriter in es <==> mask == TC)
      && (PollReaders in es <==> mask == RC || mask == RFPF)
      && (PollWriters in es <==> mask == TC || mask == TFPE)
      && (ResetRx in es <==> mask == RPURE || mask == RPORE || mask == RPUE)
      && (ResetTx in es <==> mask == TPOE)
  {
  }

  /** An event of the log is called for by a pending interrupt of the list, and is followed by the
      write that clears it, or is that write. */
  predicate Explained(masks: seq<Reg>, pending: Reg, es: seq<Event>, k: nat)
    requires k < |es|
  {
    exists i :: 0 <= i < |masks| && Has(pending, masks[i]) && es[k] in Handling(masks[i]) && Clear(masks[i]) in es[k..]
  }

  lemma {:induction false} AllExplained(masks: seq<Reg>, pending: Reg, k: nat)
    requires k < |HandlingOf(masks, pending)|
    ensures Explained(masks, pending, HandlingOf(masks, pending), k)
  {
    hide Has, Handling;
    var es, rest := HandlingOf(masks, pending), HandlingOf(masks[1..], pending);
    var first := if Has(pending, masks[0]) then Handling(masks[0]) else [];
    assert es == first + rest;
    if k < |first| {
      ClearComesLast(masks[0]);
      assert es[|first| - 1] == Clear(masks[0]) && es[k..][|first| - 1 - k] == Clear(masks[0]);
    } else {
      AllExplained(masks[1..], pending, k - |first|);
      assert es[k..] == rest[k - |first|..];
      var i :| 0 <= i < |masks[1..]| && Has(pending, masks[1..][i]) && rest[k - |first|] in Handling(masks[1..][i])
               && Clear(masks[1..][i]) in rest[k - |first|..];
      assert masks[1..][i] == masks[i + 1];
    }
  }

  lemma {:induction false} AllHandled(masks: seq<Reg>, pending: Reg, i: nat)
    requires i < |masks| && Has(pending, masks[i])
    ensures forall e :: e in Handling(masks[i]) ==> e in HandlingOf(masks, pending)
  {
    hide Has, Handling;
    if i > 0 {
      AllHandled(masks[1..], pending, i - 1);
    }
  }

  /** An event occurs if and only if one of the bits that call for it is pending, and never after the
      last write that clears such a bit. */
  lemma OccursIff(e: Event, bits: seq<Reg>, pending: Reg)
    requires forall m :: m in bits ==> m in PRIORITY
    requires forall m :: m in PRIORITY ==> (e in Handling(m) <==> m in bits)
    ensures var es := HandlingOf(PRIORITY, pending);
      && (e in es <==> exists m :: m in bits && Has(pending, m))
      && (forall k :: 0 <= k < |es| && es[k] == e ==> exists m :: m in bits && Has(pending, m) && Clear(m) in es[k..])
  {
    hide Has, Handling, HandlingOf;
    var es := HandlingOf(PRIORITY, pending);
    forall k | 0 <= k < |es| && es[k] == e
      ensures exists m :: m in bits && Has(pending, m) && Clear(m) in es[k..]
    {
      AllExplained(PRIORITY, pending, k);
      var i :| 0 <= i < |PRIORITY| && Has(pending, PRIORITY[i]) && e in Handling(PRIORITY[i])
               && Clear(PRIORITY[i]) in es[k..];
      assert PRIORITY[i] in PRIORITY;
    }
    if m :| m in bits && Has(pending, m) {
      var i :| 0 <= i < |PRIORITY| && PRIORITY[i] == m;
      AllHandled(PRIORITY, pending, i);
    }
  }

  lemma ClearsItsOwn(m: Reg, n: Reg)
    ensures Clear(m) in Handling(n) <==> m == n
  {
    hide Handling;
    ClearComesLast(n);
  }

  lemma MasksInPriority()
    ensures RC in PRIORITY && TC in PRIORITY && TFPE in PRIORITY && RFPF in PRIORITY
    ensures RPURE in PRIORITY && RPORE in PRIORITY && RPUE in PRIORITY && TPOE in PRIORITY
  {
    assert PRIORITY[0] == RC && PRIORITY[1] == TC && PRIORITY[3] == TFPE && PRIORITY[4] == RFPF;
    assert PRIORITY[8] == RPURE && PRIORITY[9] == RPORE && PRIORITY[10] == RPUE && PRIORITY[11] == TPOE;
  }

  /** The readers are woken for a received packet and the writers for a sent one, before the bit is
      cleared. */
  lemma WakesIff(pending: Reg)
    ensures var es := HandlingOf(PRIORITY, pending);
      && (WakeReader in es <==> Has(pending, RC)) && (WakeWriter in es <==> Has(pending, TC))
      && (forall k :: 0 <= k < |es| && es[k] == WakeReader ==> Clear(RC) in es[k..])
      && (forall k :: 0 <= k < |es| && es[k] == WakeWriter ==> Clear(TC) in es[k..])
  {
    MasksInPriority();
    hide Has, Handling, HandlingOf;
    forall m | m in PRIORITY
      ensures (WakeReader in Handling(m) <==> m in [RC]) && (WakeWriter in Handling(m) <==> m in [TC])
    {
      CalledFor(m);
    }
    OccursIff(WakeReader, [RC], pending);
    OccursIff(WakeWriter, [TC], pending);
  }

  lemma PollsIff(pending: Reg)
    ensures var es := HandlingOf(PRIORITY, pending);
      && (PollReaders in es <==> Has(pending, RC) || Has(pending, RFPF))
      && (PollWriters in es <==> Has(pending, TC) || Has(pending, TFPE))
  {
    MasksInPriority();
    hide Has, Handling, HandlingOf;
    forall m | m in PRIORITY
      ensures PollReaders in Handling(m) <==> m in [RC, RFPF]
      ensures PollWriters in Handling(m) <==> m in [TC, TFPE]
    {
      CalledFor(m);
    }
    OccursIff(PollReaders, [RC, RFPF], pending);
    OccursIff(PollWriters, [TC, TFPE], pending);
    assert RC in [RC, RFPF] && RFPF in [RC, RFPF] && TC in [TC, TFPE] && TFPE in [TC, TFPE];
  }

  lemma ResetsRxIff(pending: Reg)
    ensures ResetRx in HandlingOf(PRIORITY, pending)
       <==> Has(pending, RPURE) || Has(pending, RPORE) || Has(pending, RPUE)
  {
    MasksInPriority();
    hide Has, Handling, HandlingOf;
    var bits := [RPURE, RPORE, RPUE];
    forall m | m in PRIORITY
      ensures ResetRx in Handling(m) <==> m in bits
    {
      CalledFor(m);
    }
    OccursIff(ResetRx, bits, pending);
    assert RPURE in bits && RPORE in bits && RPUE in bits;
  }

  lemma ResetsTxIff(pending: Reg)
    ensures ResetTx in HandlingOf(PRIORITY, pending) <==> Has(pending, TPOE)
  {
    MasksInPriority();
    hide Has, Handling, HandlingOf;
    forall m | m in PRIORITY
      ensures ResetTx in Handling(m) <==> m in [TPOE]
    {
      CalledFor(m);
    }
    OccursIff(ResetTx, [TPOE], pending);
  }

  lemma ClearsIff(pending: Reg, m: Reg)
    requires m in PRIORITY
    ensures Clear(m) in HandlingOf(PRIORITY, pending) <==> Has(pending, m)
  {
    hide Has, Handling, HandlingOf;
    forall n | n in PRIORITY
      ensures Clear(m) in Handling(n) <==> n in [m]
    {
      ClearsItsOwn(m, n);
    }
    OccursIff(Clear(m), [m], pending);
  }

  /** What the handler does about the bits that are set and enabled. */
  lemma Answers(isr: Reg, ier: Reg)
    ensures var es := HandlingOf(PRIORITY, Pending(isr, ier)); var p := isr & ier;
      && (WakeReader in es <==> p & RC != 0) && (WakeWriter in es <==> p & TC != 0)
      && (PollReaders in es <==> p & RC != 0 || p & RFPF != 0)
      && (PollWriters in es <==> p & TC != 0 || p & TFPE != 0)
      && (ResetRx in es <==> p & RPURE != 0 || p & RPORE != 0 || p & RPUE != 0)
      && (ResetTx in es <==> p & TPOE != 0)
  {
    hide Handling, HandlingOf;
    var p := Pending(isr, ier);
    WakesIff(p);
    PollsIff(p);
    ResetsRxIff(p);
    ResetsTxIff(p);
  }

  // ----- when the loop ends

  /** One turn of the loop, as far as the status register goes. */
  function Turn(isr: Reg, ier: Reg): Reg {
    Cleared(isr, Chosen(Pending(isr, ier)))
  }

  function Turns(isr: Reg, ier: Reg, n: nat): Reg {
    if n == 0 then isr else Turn(Turns(isr, ier, n - 1), ier)
  }

  /** A bit that is enabled and pending but that the handler does not know. */
  predicate UnknownPending(isr: Reg, ier: Reg) {
    Has(Pending(isr, ier), !ALL)
  }

  lemma ClearedPending(isr: Reg, ier: Reg, m: Reg)
    ensures Pending(Cleared(isr, m), ier) == Cleared(Pending(isr, ier), m)
  {
  }

  lemma PendingIsKnown(isr: Reg, ier: Reg)
    requires !UnknownPending(isr, ier) && Pending(isr, ier) != 0
    ensures Has(Pending(isr, ier), ALL)
  {
  }

  lemma ChosenIsKnown(pending: Reg)
    ensures Chosen(pending) & !ALL == 0
  {
    hide Has;
  }

  lemma ClearingKeepsUnknown(pending: Reg, m: Reg)
    requires m & !ALL == 0
    ensures Has(Cleared(pending, m), !ALL) <==> Has(pending, !ALL)
  {
  }

  lemma TurnKeepsUnknown(isr: Reg, ier: Reg)
    ensures UnknownPending(Turn(isr, ier), ier) <==> UnknownPending(isr, ier)
  {
    hide Chosen, Has, Cleared, Pending;
    var pending := Pending(isr, ier);
    ChosenIsKnown(pending);
    ClearedPending(isr, ier, Chosen(pending));
    ClearingKeepsUnknown(pending, Chosen(pending));
  }

  lemma {:induction false} TurnsKeepUnknown(isr: Reg, ier: Reg, n: nat)
    ensures UnknownPending(Turns(isr, ier, n), ier) <==> UnknownPending(isr, ier)
  {
    hide UnknownPending, Turn;
    if n > 0 {
      TurnsKeepUnknown(isr, ier, n - 1);
      TurnKeepsUnknown(Turns(isr, ier, n - 1), ier);
    }
  }

  /** A turn with a known bit pending handles the first of the pending interrupts. */
  lemma TurnHandlesFirst(isr: Reg, ier: Reg)
    requires Has(Pending(isr, ier), ALL)
    ensures var pending := Pending(isr, ier);
      && HandlingOf(PRIORITY, pending) == Handling(Chosen(pending)) + HandlingOf(PRIORITY, Pending(Turn(isr, ier), ier))
      && Count(PRIORITY, pending) == 1 + Count(PRIORITY, Pending(Turn(isr, ier), ier))
  {
    hide Has, Chosen, Handling, Cleared, Pending;
    var pending := Pending(isr, ier);
    var k := ChosenIsFirst(pending);
    PriorityIsDisjoint();
    HandleFirst(PRIORITY, pending, k);
    ClearedPending(isr, ier, PRIORITY[k]);
  }

  lemma {:induction false} TurnsCountDown(isr: Reg, ier: Reg, n: nat)
    requires !UnknownPending(isr, ier) && n <= Count(PRIORITY, Pending(isr, ier))
    ensures Count(PRIORITY, Pending(Turns(isr, ier, n), ier)) == Count(PRIORITY, Pending(isr, ier)) - n
  {
    hide UnknownPending, Turn, Has, Pending;
    if n > 0 {
      TurnsCountDown(isr, ier, n - 1);
      TurnsKeepUnknown(isr, ier, n - 1);
      var isr' := Turns(isr, ier, n - 1);
      CountsPending(Pending(isr', ier));
      TurnHandlesFirst(isr', ier);
    }
  }

  lemma CountsPending(pending: Reg)
    ensures Count(PRIORITY, pending) > 0 <==> Has(pending, ALL)
  {
    hide Has;
    if Has(pending, ALL) {
      var k := ChosenIsFirst(pending);
      PriorityIsDisjoint();
      HandleFirst(PRIORITY, pending, k);
    } else {
      forall i | 0 <= i < |PRIORITY|
        ensures !Has(pending, PRIORITY[i])
      {
        if Has(pending, PRIORITY[i]) {
          KnownBit(pending, i);
        }
      }
      NoneCounted(PRIORITY, pending);
    }
  }

  lemma KnownBit(pending: Reg, i: nat)
    requires i < |PRIORITY| && Has(pending, PRIORITY[i])
    ensures Has(pending, ALL)
  {
    var m := PRIORITY[i];
    assert m & ALL == m;
  }

  lemma {:induction false} NoneCounted(masks: seq<Reg>, pending: Reg)
    requires forall i :: 0 <= i < |masks| ==> !Has(pending, masks[i])
    ensures Count(masks, pending) == 0
  {
    hide Has;
    if masks != [] {
      NoneCounted(masks[1..], pending);
    }
  }

  /** Left alone, the loop ends if and only if no unknown bit is enabled and pending; it then takes
      one turn for each pending interrupt. */
  lemma EndsIffKnown(isr: Reg, ier: Reg)
    ensures (exists n: nat :: Pending(Turns(isr, ier, n), ier) == 0) <==> !UnknownPending(isr, ier)
    ensures !UnknownPending(isr, ier) ==> Pending(Turns(isr, ier, Count(PRIORITY, Pending(isr, ier))), ier) == 0
  {
    hide Turn, Turns, Count, UnknownPending, Pending;
    if UnknownPending(isr, ier) {
      forall n: nat
        ensures Pending(Turns(isr, ier, n), ier) != 0
      {
        TurnsKeepUnknown(isr, ier, n);
        UnknownIsPending(Turns(isr, ier, n), ier);
      }
    } else {
      var n := Count(PRIORITY, Pending(isr, ier));
      TurnsCountDown(isr, ier, n);
      TurnsKeepUnknown(isr, ier, n);
      CountsPending(Pending(Turns(isr, ier, n), ier));
      NothingLeft(Turns(isr, ier, n), ier);
    }
  }

  lemma UnknownIsPending(isr: Reg, ier: Reg)
    requires UnknownPending(isr, ier)
    ensures Pending(isr, ier) != 0
  {
  }

  lemma NothingLeft(isr: Reg, ier: Reg)
    requires !UnknownPending(isr, ier) && !Has(Pending(isr, ier), ALL)
    ensures Pending(isr, ier) == 0
  {
  }

  /** What a reset of the core enables. */
  const RESET_ENABLE: Reg := TC | RC | RPURE | RPORE | RPUE | TPOE | TSE

  /** Those are known bits, and the ones for a packet received and a packet sent are among them. */
  lemma ResetEnablesKnownBits(isr: Reg)
    ensures !UnknownPending(isr, RESET_ENABLE)
    ensures isr & RC != 0 ==> Pending(isr, RESET_ENABLE) & RC != 0
    ensures isr & TC != 0 ==> Pending(isr, RESET_ENABLE) & TC != 0
  {
    assert RESET_ENABLE & !ALL == 0;
    assert isr & RESET_ENABLE & !ALL == isr & (RESET_ENABLE & !ALL);
  }

  // ----- the handler

  /** The status and enable registers of the core. */
  class FifoInterrupts {
    var isr: Reg
    const ier: Reg
    ghost var log: seq<Event>

    constructor (isr: Reg, ier: Reg)
      ensures this.isr == isr && this.ier == ier && log == []
    {
      this.isr, this.ier, log := isr, ier, [];
    }

    /** A write to the status register clears the bits that are set in the value written. */
    method WriteIsr(value: Reg)
      modifies this
      ensures isr == Cleared(old(isr), value) && log == old(log) + [Clear(value)]
    {
      isr := isr & !value;
      log := log + [Clear(value)];
    }

    method Do(event: Event)
      modifies this`log
      ensures log == old(log) + [event]
    {
      log := log + [event];
    }

    /** The tests of the loop body, from the first bit to the last. */
    method Test(pending: Reg)
      modifies this
      ensures isr == Cleared(old(isr), Chosen(pending))
      ensures log == old(log) + if pending == 0 then [] else Handling(Chosen(pending))
    {
      hide Has, Cleared;
      ClearedByNothing(isr);
      NothingHas(pending);
      if Has(pending, RC) {
        Do(WakeReader);
        Do(PollReaders);
        WriteIsr(RC & ALL);
      } else if Has(pending, TC) {
        Do(WakeWriter);
        Do(PollWriters);
        WriteIsr(TC & ALL);
      } else if Has(pending, TFPF) {
        WriteIsr(TFPF & ALL);
      } else if Has(pending, TFPE) {
        Do(PollWriters);
        WriteIsr(TFPE & ALL);
      } else if Has(pending, RFPF) {
        Do(PollReaders);
        WriteIsr(RFPF & ALL);
      } else if Has(pending, RFPE) {
        WriteIsr(RFPE & ALL);
      } else if Has(pending, TRC) {
        WriteIsr(TRC & ALL);
      } else if Has(pending, RRC) {
        WriteIsr(RRC & ALL);
      } else if Has(pending, RPURE) {
        Do(ResetRx);
        WriteIsr(RPURE & ALL);
      } else if Has(pending, RPORE) {
        Do(ResetRx);
        WriteIsr(RPORE & ALL);
      } else if Has(pending, RPUE) {
        Do(ResetRx);
        WriteIsr(RPUE & ALL);
      } else if Has(pending, TPOE) {
        Do(ResetTx);
        WriteIsr(TPOE & ALL);
      } else if Has(pending, TSE) {
        WriteIsr(TSE & ALL);
      } else if pending != 0 {
        WriteIsr(ALL);
      }
    }

    /** The body of the loop: the wake-ups, polls and resets that the chosen bit calls for, and then the
        write that clears it. */
    method HandleOne(pending: Reg)
      modifies this
      ensures isr == Cleared(old(isr), Chosen(pending))
      ensures log == old(log) + if pending == 0 then [] else Handling(Chosen(pending))
      ensures pending != 0 ==>
        var es, mask := log[|old(log)|..], Chosen(pending);
        && es != [] && es[|es| - 1] == Clear(mask) && (forall k :: 0 <= k < |es| - 1 ==> !es[k].Clear?)
        && (WakeReader in es <==> mask == RC) && (WakeWriter in es <==> mask == TC)
        && (PollReaders in es <==> mask == RC || mask == RFPF) && (PollWriters in es <==> mask == TC || mask == TFPE)
        && (ResetRx in es <==> mask == RPURE || mask == RPORE || mask == RPUE) && (ResetTx in es <==> mask == TPOE)
    {
      hide Chosen, Cleared, Handling;
      Test(pending);
      ClearComesLast(Chosen(pending));
      CalledFor(Chosen(pending));
      assert pending != 0 ==> log[|old(log)|..] == Handling(Chosen(pending));
    }

    /** Other bits may be set at every turn, as long as they are not enabled. Every pending
        interrupt is handled once, in the order of priority; none is left pending, and no disabled
        bit is lost. */
    method Irq(raised: nat -> Reg)
      requires !UnknownPending(isr, ier)
      requires forall n :: Pending(raised(n), ier) == 0
      modifies this
      ensures Pending(isr, ier) == 0
      ensures log == old(log) + HandlingOf(PRIORITY, old(Pending(isr, ier)))
      ensures LosesOnly(ier, old(isr), isr)
      ensures var es, p := log[|old(log)|..], old(isr) & ier;
        && (WakeReader in es <==> p & RC != 0) && (WakeWriter in es <==> p & TC != 0)
        && (PollReaders in es <==> p & RC != 0 || p & RFPF != 0)
        && (PollWriters in es <==> p & TC != 0 || p & TFPE != 0)
        && (ResetRx in es <==> p & RPURE != 0 || p & RPORE != 0 || p & RPUE != 0)
        && (ResetTx in es <==> p & TPOE != 0)
    {
      hide Pending, UnknownPending, Chosen, Handling, Has, Cleared, Count, HandlingOf, LosesOnly, Raised;
      var turn: nat, again := 0, true;
      LosesNothing(ier, isr);
      while again
        invariant !UnknownPending(isr, ier)
        invariant !again ==> Pending(isr, ier) == 0
        invariant log + HandlingOf(PRIORITY, Pending(isr, ier))
               == old(log) + HandlingOf(PRIORITY, old(Pending(isr, ier)))
        invariant LosesOnly(ier, old(isr), isr)
        decreases Count(PRIORITY, Pending(isr, ier)) + if again then 1 else 0
      {
        RaisingIsHarmless(ier, old(isr), isr, raised(turn));
        isr := Raised(isr, raised(turn));
        var pending := Pending(isr, ier);
        if pending != 0 {
          PendingIsKnown(isr, ier);
          TurnHandlesFirst(isr, ier);
          TurnKeepsUnknown(isr, ier);
          TurnLosesOnly(ier, old(isr), isr);
        }
        ClearsNothing(isr);
        HandleOne(pending);
        turn, again := turn + 1, pending != 0;
      }
      NothingHandled();
      Answers(old(isr), ier);
      ghost var es := HandlingOf(PRIORITY, old(Pending(isr, ier)));
      assert log == log + [] == old(log) + es;
      assert log[|old(log)|..] == es;
    }
  }

  function Raised(isr: Reg, bits: Reg): Reg {
    isr | bits
  }

  /** Every bit of `before` that is not in `ier` is still in `after`. */
  predicate LosesOnly(ier: Reg, before: Reg, after: Reg) {
    before & !ier & !after == 0
  }

  lemma LosesNothing(ier: Reg, isr: Reg)
    ensures LosesOnly(ier, isr, isr)
  {
  }

  lemma RaisedPending(ier: Reg, isr: Reg, raised: Reg)
    requires Pending(raised, ier) == 0
    ensures Pending(Raised(isr, raised), ier) == Pending(isr, ier)
  {
  }

  lemma RaisedLosesOnly(ier: Reg, before: Reg, isr: Reg, raised: Reg)
    requires LosesOnly(ier, before, isr)
    ensures LosesOnly(ier, before, Raised(isr, raised))
  {
  }

  lemma RaisingIsHarmless(ier: Reg, before: Reg, isr: Reg, raised: Reg)
    requires Pending(raised, ier) == 0 && LosesOnly(ier, before, isr)
    ensures Pending(Raised(isr, raised), ier) == Pending(isr, ier)
    ensures UnknownPending(Raised(isr, raised), ier) <==> UnknownPending(isr, ier)
    ensures LosesOnly(ier, before, Raised(isr, raised))
  {
    hide Pending, Raised, LosesOnly, Has;
    RaisedPending(ier, isr, raised);
    RaisedLosesOnly(ier, before, isr, raised);
  }

  lemma ChosenIsPending(pending: Reg)
    requires Has(pending, ALL)
    ensures Chosen(pending) & !pending == 0
  {
  }

  lemma TurnLosesOnly(ier: Reg, before: Reg, isr: Reg)
    requires Has(Pending(isr, ier), ALL) && LosesOnly(ier, before, isr)
    ensures LosesOnly(ier, before, Turn(isr, ier))
  {
    ChosenIsPending(Pending(isr, ier));
    hide Chosen, Has, LosesOnly, Cleared;
    ClearsEnabled(ier, before, isr, Chosen(Pending(isr, ier)));
  }

  lemma ClearsEnabled(ier: Reg, before: Reg, isr: Reg, m: Reg)
    requires m & !Pending(isr, ier) == 0 && LosesOnly(ier, before, isr)
    ensures LosesOnly(ier, before, Cleared(isr, m))
  {
  }

  lemma ClearsNothing(isr: Reg)
    ensures Cleared(isr, Chosen(0)) == isr
  {
  }

  lemma NothingHandled()
    ensures HandlingOf(PRIORITY, 0) == []
  {
    assert forall m :: !Has(0, m);
    NothingHandledOf(PRIORITY);
  }

  lemma {:induction false} NothingHandledOf(masks: seq<Reg>)
    ensures HandlingOf(masks, 0) == []
  {
    hide Handling;
    if masks != [] {
      NothingHandledOf(masks[1..]);
    }
  }

  lemma NothingHas(pending: Reg)
    ensures forall m :: Has(pending, m) ==> pending != 0
  {
  }

  lemma ClearedByNothing(isr: Reg)
    ensures Cleared(isr, 0) == isr
  {
  }
}
