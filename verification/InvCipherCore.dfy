/**
 `aes_inv_cipher_top` as clocked hardware: filling the key buffer backwards, replaying it one
 clock behind the round counter, and the control invariant that keeps the two in range.
 */
module InvCipherCore {
  import opened AesRounds
  import opened KeySchedule
  import KeyExpander
  import Runs

  datatype Regs = Regs(
    u0: KeyExpander.KeyRegs,
    kb: RoundKeys,
    kcnt: Nibble,
    kbLd: bool,
    kdone: bool,
    dcnt: Nibble,
    done: bool,
    go: bool,
    ldR: bool,
    textInR: Block,
    w: Block,
    sa: Block,
    textOut: Block
  )

  /** The input wires at one edge; rst is active low. What a read of `kb` past its last entry
      returns is not defined by the hardware: `junk` stands for it, and may differ at every edge. */
  datatype Wires = Wires(rst: bool, kld: bool, ld: bool, key: Block, textIn: Block, junk: Block)

  /** One rising clock edge: all registers step at once. */
  function Step(r: Regs, i: Wires): Regs {
    Regs(
      KeyExpander.Step(r.u0, i.kld, i.key),
      if r.kbLd && r.kcnt < 11 then r.kb[r.kcnt := r.u0.w] else r.kb,
      if !i.rst || i.kld then 10 else if r.kbLd then (r.kcnt + 15) % 16 else r.kcnt,
      if !i.rst then false else if i.kld then true else if r.kcnt == 0 then false else r.kbLd,
      r.kcnt == 0 && !i.kld,
      if !i.rst || r.done then 0 else if i.ld then 1 else if r.go then (r.dcnt + 1) % 16 else r.dcnt,
      r.dcnt == 11 && !i.ld,
      if !i.rst then false else if i.ld then true else if r.done then false else r.go,
      i.ld,
      if i.ld then i.textIn else r.textInR,
      if r.dcnt < 11 then r.kb[r.dcnt] else i.junk,
      if r.ldR then AddKey(r.textInR, r.w) else InvRound(r.sa, r.w),
      InvLastRound(r.sa, r.w)
    )
  }

  function Run(r: Regs, wires: seq<Wires>): Regs {
    Runs.Run(Step, r, wires)
  }

  // ----- control

  /** What the counters and flags obey once reset is released, whatever `ld` and `kld` do. */
  predicate ControlOk(r: Regs) {
    && r.dcnt <= 12
    && (r.done <==> r.dcnt == 12)
    && (r.dcnt > 0 ==> r.go)
    && (r.kbLd ==> r.kcnt <= 10)
    && (!r.kbLd ==> r.kcnt in {10, 15})
  }

  /** Two edges in reset settle the control, from any register contents: `done` is not reset
      itself, so the first edge may still raise it. */
  lemma ResetSettles(r: Regs, i: Wires, j: Wires)
    requires !i.rst && !j.rst
    ensures ControlOk(Step(Step(r, i), j))
  {
    hide Step;
    ResetClearsCount(r, i);
    OneResetEdgeSettlesIff(Step(r, i), j);
  }

  lemma ResetClearsCount(r: Regs, i: Wires)
    requires !i.rst
    ensures Step(r, i).dcnt == 0
  {
    hide AddKey, InvRound, InvLastRound, KeyExpander.Step;
  }

  /** `done` is not reset: an edge in reset that finds the eleventh count raises it all the same. */
  lemma DoneRisesInReset(r: Regs, i: Wires)
    requires !i.rst && r.dcnt == 11 && !i.ld
    ensures Step(r, i).done && Step(r, i).dcnt == 0
  {
    hide AddKey, InvRound, InvLastRound, KeyExpander.Step;
  }

  /** One edge in reset settles the control if and only if it does not find that count. */
  lemma OneResetEdgeSettlesIff(r: Regs, i: Wires)
    requires !i.rst
    ensures ControlOk(Step(r, i)) <==> !(r.dcnt == 11 && !i.ld)
  {
    hide AddKey, InvRound, InvLastRound, KeyExpander.Step;
  }

  /** Every `kb` write is in range. */
  lemma ControlKept(r: Regs, i: Wires)
    requires ControlOk(r) && i.rst
    ensures ControlOk(Step(r, i))
    ensures r.kbLd ==> r.kcnt < |r.kb|
  {
    hide AddKey, InvRound, InvLastRound, KeyExpander.Step;
  }

  lemma {:induction false} ControlKeptByRuns(r: Regs, wires: seq<Wires>)
    requires ControlOk(r)
    requires forall n :: 0 <= n < |wires| ==> wires[n].rst
    ensures ControlOk(Run(r, wires))
  {
    hide Step;
    if wires != [] {
      ControlKeptByRuns(r, wires[..|wires| - 1]);
      ControlKept(Run(r, wires[..|wires| - 1]), wires[|wires| - 1]);
    }
  }

  // ----- filling the key buffer

  /** k edges after the key-load edge: the last k entries hold the first k round keys, last
      entry first. */
  predicate Filling(r: Regs, key: Block, k: nat) {
    && k <= 11
    && KeyExpander.Holds(r.u0, key, k)
    && r.kcnt == (if k <= 10 then 10 - k else 15)
    && r.kbLd == (k <= 10)
    && r.kdone == (k == 11)
    && (forall i :: 11 - k <= i <= 10 ==> r.kb[i] == RoundKey(key, 10 - i))
  }

  /** The buffer holds the schedule ks, last round key first, and is not being filled. */
  predicate Loaded(r: Regs, ks: seq<Block>) {
    && |ks| == 11
    && !r.kbLd && r.kcnt != 0
    && (forall i :: 0 <= i <= 10 ==> r.kb[i] == ks[10 - i])
  }

  lemma KeyLoadStarts(r: Regs, i: Wires)
    requires i.rst && i.kld
    ensures Filling(Step(r, i), i.key, 0)
  {
    hide AddKey, InvRound, InvLastRound, RoundKey, KeyExpander.Step;
    KeyExpander.LoadStarts(r.u0, i.key);
  }

  lemma FillAdvances(r: Regs, i: Wires, key: Block, k: nat)
    requires Filling(r, key, k) && k < 11
    requires i.rst && !i.kld
    ensures Filling(Step(r, i), key, k + 1)
  {
    hide AddKey, InvRound, InvLastRound, RoundKey, KeyExpander.Step;
    KeyExpander.EdgeAdvances(r.u0, key, k, i.key);
  }

  lemma FilledIsLoaded(r: Regs, key: Block)
    requires Filling(r, key, 11)
    ensures Loaded(r, Schedule(key))
  {
    hide RoundKey;
  }

  /** Without a key load the buffer keeps its contents and `kdone` stays low. */
  lemma LoadedStays(r: Regs, i: Wires, ks: seq<Block>)
    requires Loaded(r, ks) && i.rst && !i.kld
    ensures Loaded(Step(r, i), ks)
    ensures !Step(r, i).kdone
    ensures Step(r, i).kb == r.kb
  {
    hide AddKey, InvRound, InvLastRound, KeyExpander.Step;
  }

  /** The buffer is not being filled. */
  predicate AtRest(r: Regs) {
    !r.kbLd && r.kcnt != 0
  }

  lemma LoadedIsAtRest(r: Regs, ks: seq<Block>)
    requires Loaded(r, ks)
    ensures AtRest(r)
  {
  }

  lemma AtRestStays(r: Regs, i: Wires)
    requires AtRest(r) && i.rst && !i.kld
    ensures AtRest(Step(r, i)) && !Step(r, i).kdone
  {
    hide AddKey, InvRound, InvLastRound, KeyExpander.Step;
  }

  /** What the buffer holds, as a schedule. */
  function Buffered(r: Regs): RoundKeys {
    [r.kb[10], r.kb[9], r.kb[8], r.kb[7], r.kb[6], r.kb[5], r.kb[4], r.kb[3], r.kb[2], r.kb[1], r.kb[0]]
  }

  lemma FillingShows(r: Regs, key: Block, k: nat)
    requires Filling(r, key, k)
    ensures r.kdone <==> k == 11
  {
    hide RoundKey;
  }

  /** A key-load edge with reset released, then edges without a key load. */
  predicate OneKeyLoad(wires: seq<Wires>) {
    && |wires| > 0 && wires[0].kld
    && (forall i :: 0 <= i < |wires| ==> wires[i].rst)
    && (forall i :: 0 < i < |wires| ==> !wires[i].kld)
  }

  lemma {:induction false} FillRun(r: Regs, wires: seq<Wires>)
    requires OneKeyLoad(wires)
    ensures |wires| <= 12 ==> Filling(Run(r, wires), wires[0].key, |wires| - 1)
    ensures |wires| >= 12 ==> Loaded(Run(r, wires), Schedule(wires[0].key))
    ensures Run(r, wires).kdone <==> |wires| == 12
  {
    hide Step, RoundKey, Schedule, Loaded;
    var n := |wires| - 1;
    if n == 0 {
      KeyLoadStarts(r, wires[0]);
      assert wires[..0] == [] && Run(r, []) == r;
    } else {
      FillRun(r, wires[..n]);
      if n <= 11 {
        FillAdvances(Run(r, wires[..n]), wires[n], wires[0].key, n - 1);
        if n == 11 {
          FilledIsLoaded(Run(r, wires), wires[0].key);
        }
      } else {
        LoadedStays(Run(r, wires[..n]), wires[n], Schedule(wires[0].key));
      }
    }
  }

  /** Twelve edges after a key load the buffer holds the round keys in reverse order and keeps
      them until the next key load; `kdone` pulses at the twelfth edge only. */
  lemma KeyBufferHoldsSchedule(r: Regs, wires: seq<Wires>)
    requires OneKeyLoad(wires)
    ensures |wires| >= 12 ==> forall i :: 0 <= i <= 10 ==> Run(r, wires).kb[i] == RoundKey(wires[0].key, 10 - i)
    ensures |wires| >= 12 ==> !Run(r, wires).kbLd
    ensures Run(r, wires).kdone <==> |wires| == 12
  {
    hide Step, RoundKey, Run;
    FillRun(r, wires);
  }

  // ----- one decryption, edge by edge

  /** k edges after the load edge: the key register holds entry k of the buffer, k - 1 full
      inverse rounds are done, and after eleven edges the result is out. */
  predicate Busy(r: Regs, ks: seq<Block>, y: Block, k: nat) {
    && k <= 11 && |ks| == 11
    && r.dcnt == k + 1
    && r.done == (k == 11)
    && r.go
    && r.ldR == (k == 0)
    && r.textInR == y
    && (k <= 10 ==> r.w == ks[10 - k])
    && (1 <= k <= 10 ==> r.sa == DecState(y, ks, k - 1))
    && (k == 11 ==> r.textOut == Decrypt(y, ks))
  }

  lemma LoadStarts(r: Regs, i: Wires, ks: seq<Block>)
    requires Loaded(r, ks) && r.dcnt == 0 && !r.done
    requires i.rst && i.ld
    ensures Busy(Step(r, i), ks, i.textIn, 0)
  {
    hide AddKey, InvRound, InvLastRound, KeyExpander.Step;
  }

  lemma EdgeAdvances(r: Regs, i: Wires, ks: seq<Block>, y: Block, k: nat)
    requires Loaded(r, ks) && Busy(r, ks, y, k) && k < 11
    requires i.rst && !i.ld
    ensures Busy(Step(r, i), ks, y, k + 1)
  {
    hide AddKey, InvRound, InvLastRound, KeyExpander.Step;
  }

  lemma BusyShows(r: Regs, ks: seq<Block>, y: Block, k: nat)
    requires Busy(r, ks, y, k)
    ensures r.done <==> k == 11
    ensures k == 11 ==> r.dcnt == 12 && r.textOut == Decrypt(y, ks)
  {
    hide Decrypt, DecState;
  }

  /** A core that is not counting stays put and raises nothing. */
  predicate Idle(r: Regs) {
    r.dcnt == 0 && !r.done && !r.go
  }

  lemma DoneThenIdle(r: Regs, i: Wires)
    requires i.rst && !i.ld
    requires Idle(r) || (r.done && r.dcnt == 12)
    ensures Idle(Step(r, i))
  {
    hide AddKey, InvRound, InvLastRound, KeyExpander.Step;
  }

  /** A load edge with reset released, then edges without a load, none of them a key load. */
  predicate OneLoad(wires: seq<Wires>) {
    && |wires| > 0 && wires[0].ld
    && (forall i :: 0 <= i < |wires| ==> wires[i].rst && !wires[i].kld)
    && (forall i :: 0 < i < |wires| ==> !wires[i].ld)
  }

  lemma {:induction false} RunAdvances(r: Regs, wires: seq<Wires>, ks: seq<Block>)
    requires Loaded(r, ks) && r.dcnt == 0 && !r.done
    requires OneLoad(wires) && |wires| <= 12
    ensures Busy(Run(r, wires), ks, wires[0].textIn, |wires| - 1)
    ensures Loaded(Run(r, wires), ks)
  {
    hide Step, Busy;
    var n := |wires| - 1;
    if n == 0 {
      LoadStarts(r, wires[0], ks);
      LoadedStays(r, wires[0], ks);
      assert wires[..0] == [] && Run(r, []) == r;
    } else {
      RunAdvances(r, wires[..n], ks);
      EdgeAdvances(Run(r, wires[..n]), wires[n], ks, wires[0].textIn, n - 1);
      LoadedStays(Run(r, wires[..n]), wires[n], ks);
    }
  }

  /** From a settled core with a loaded buffer and the counter at rest, twelve edges decrypt the
      text present at the load edge, whatever reads past the buffer return; `done` rises with the
      twelfth edge and not before. */
  lemma TwelveEdgesDecrypt(r: Regs, wires: seq<Wires>, key: Block)
    requires Loaded(r, Schedule(key)) && r.dcnt == 0 && ControlOk(r)
    requires OneLoad(wires) && |wires| == 12
    ensures Run(r, wires).textOut == InvCipher(key, wires[0].textIn)
    ensures forall n :: 1 <= n <= 12 ==> (Run(r, wires[..n]).done <==> n == 12)
  {
    hide Run, RoundKey, Schedule, DecState;
    forall n | 1 <= n <= 12
      ensures Run(r, wires[..n]).done <==> n == 12
    {
      RunAdvances(r, wires[..n], Schedule(key));
    }
    RunAdvances(r, wires, Schedule(key));
  }

  // ----- the module

  /** `aes_inv_cipher_top`. */
  class AesInvCipherTop {
    const u0: KeyExpander.KeyExpand128
    const kb: array<Block>
    var kcnt: Nibble
    var kbLd: bool
    var kdone: bool
    var dcnt: Nibble
    var done: bool
    var go: bool
    var ldR: bool
    var textInR: Block
    var w: Block
    var sa: Block
    var textOut: Block

    constructor ()
      ensures fresh(u0) && fresh(u0.r0) && fresh(kb) && kb.Length == 11
    {
      u0 := new KeyExpander.KeyExpand128();
      kb := new Block[11];
    }

    ghost function Registers(): Regs
      requires kb.Length == 11
      reads this, u0, u0.r0, kb
    {
      Regs(u0.Regs(), kb[..], kcnt, kbLd, kdone, dcnt, done, go, ldR, textInR, w, sa, textOut)
    }

    /** The round counter with its two flags. */
    method CounterEdge(rst: bool, ld: bool)
      requires kb.Length == 11
      modifies this`dcnt, this`done, this`go
      ensures var r := old(Registers()); Registers() == r.(
        dcnt := if !rst || r.done then 0 else if ld then 1 else if r.go then (r.dcnt + 1) % 16 else r.dcnt,
        done := r.dcnt == 11 && !ld,
        go := if !rst then false else if ld then true else if r.done then false else r.go)
    {
      var next := dcnt;
      if !rst {
        next := 0;
      } else if done {
        next := 0;
      } else if ld {
        next := 1;
      } else if go {
        next := (dcnt + 1) % 16;
      }
      if !rst {
        go := false;
      } else if ld {
        go := true;
      } else if done {
        go := false;
      }
      done := dcnt == 11 && !ld;
      dcnt := next;
    }

    /** The state register and the output. */
    method StateEdge()
      requires kb.Length == 11
      modifies this`sa, this`textOut
      ensures var r := old(Registers()); Registers() == r.(
        sa := if r.ldR then AddKey(r.textInR, r.w) else InvRound(r.sa, r.w),
        textOut := InvLastRound(r.sa, r.w))
    {
      hide AddKey, InvShiftRows, InvSubBytes, InvMixColumns;
      var ark := AddKey(InvSubBytes(InvShiftRows(sa)), w);
      var next := InvMixColumns(ark);
      sa := if ldR then AddKey(textInR, w) else next;
      textOut := ark;
    }

    /** The text registers and the key that is read out of the buffer. */
    method TextEdge(ld: bool, textIn: Block, junk: Block)
      requires kb.Length == 11
      modifies this`ldR, this`textInR, this`w
      ensures var r := old(Registers()); Registers() == r.(
        ldR := ld,
        textInR := if ld then textIn else r.textInR,
        w := if r.dcnt < 11 then r.kb[r.dcnt] else junk)
    {
      w := if dcnt < 11 then kb[dcnt] else junk;
      if ld {
        textInR := textIn;
      }
      ldR := ld;
    }

    /** The text, state and key registers and the output. */
    method DataEdge(ld: bool, textIn: Block, junk: Block)
      requires kb.Length == 11
      modifies this`ldR, this`textInR, this`w, this`sa, this`textOut
      ensures var r := old(Registers()); Registers() == r.(
        ldR := ld,
        textInR := if ld then textIn else r.textInR,
        w := if r.dcnt < 11 then r.kb[r.dcnt] else junk,
        sa := if r.ldR then AddKey(r.textInR, r.w) else InvRound(r.sa, r.w),
        textOut := InvLastRound(r.sa, r.w))
    {
      hide AddKey, InvRound, InvLastRound;
      StateEdge();
      TextEdge(ld, textIn, junk);
    }

    /** The counter that fills the key buffer with its two flags. */
    method FillCounterEdge(rst: bool, kld: bool)
      requires kb.Length == 11
      modifies this`kcnt, this`kbLd, this`kdone
      ensures var r := old(Registers()); Registers() == r.(
        kcnt := if !rst || kld then 10 else if r.kbLd then (r.kcnt + 15) % 16 else r.kcnt,
        kbLd := if !rst then false else if kld then true else if r.kcnt == 0 then false else r.kbLd,
        kdone := r.kcnt == 0 && !kld)
    {
      var next := kcnt;
      if !rst {
        next := 10;
      } else if kld {
        next := 10;
      } else if kbLd {
        next := (kcnt + 15) % 16;
      }
      if !rst {
        kbLd := false;
      } else if kld {
        kbLd := true;
      } else if kcnt == 0 {
        kbLd := false;
      }
      kdone := kcnt == 0 && !kld;
      kcnt := next;
    }

    /** The key buffer and the key expander that fills it. */
    method KeyEdge(rst: bool, kld: bool, key: Block)
      requires kb.Length == 11
      modifies this`kcnt, this`kbLd, this`kdone, kb, u0, u0.r0
      ensures var r := old(Registers()); Registers() == r.(
        u0 := KeyExpander.Step(r.u0, kld, key),
        kb := if r.kbLd && r.kcnt < 11 then r.kb[r.kcnt := r.u0.w] else r.kb,
        kcnt := if !rst || kld then 10 else if r.kbLd then (r.kcnt + 15) % 16 else r.kcnt,
        kbLd := if !rst then false else if kld then true else if r.kcnt == 0 then false else r.kbLd,
        kdone := r.kcnt == 0 && !kld)
    {
      hide KeyExpander.Step;
      if kbLd && kcnt < 11 {
        kb[kcnt] := Block(u0.w0, u0.w1, u0.w2, u0.w3);
      }
      FillCounterEdge(rst, kld);
      u0.Edge(kld, key);
    }

    /** The edges of the three groups, in an order in which each still reads the values the
        others held before. */
    method Edge(rst: bool, kld: bool, ld: bool, key: Block, textIn: Block, junk: Block)
      requires kb.Length == 11
      modifies this, u0, u0.r0, kb
      ensures Registers() == Step(old(Registers()), Wires(rst, kld, ld, key, textIn, junk))
    {
      hide AddKey, InvRound, InvLastRound, KeyExpander.Step;
      DataEdge(ld, textIn, junk);
      KeyEdge(rst, kld, key);
      CounterEdge(rst, ld);
    }
  }
}
