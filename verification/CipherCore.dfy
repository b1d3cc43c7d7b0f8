/**
 `aes_cipher_top` as clocked hardware, and its refinement of the cipher: one load edge and
 eleven more edges compute it, from whatever the registers held before.
 */
module CipherCore {
  import opened AesRounds
  import opened KeySchedule
  import KeyExpander
  import Runs

  datatype Regs = Regs(
    u0: KeyExpander.KeyRegs,
    dcnt: Nibble,
    done: bool,
    ldR: bool,
    textInR: Block,
    sa: Block,
    textOut: Block
  )

  /** The input wires at one edge; rst is active low. */
  datatype Wires = Wires(rst: bool, ld: bool, key: Block, textIn: Block)

  /** One rising clock edge: all registers step at once. */
  function Step(r: Regs, i: Wires): Regs {
    Regs(
      KeyExpander.Step(r.u0, i.ld, i.key),
      if !i.rst then 0 else if i.ld then 11 else if r.dcnt != 0 then r.dcnt - 1 else 0,
      r.dcnt == 1 && !i.ld,
      i.ld,
      if i.ld then i.textIn else r.textInR,
      if r.ldR then AddKey(r.textInR, r.u0.w) else Round(r.sa, r.u0.w),
      LastRound(r.sa, r.u0.w)
    )
  }

  function Run(r: Regs, wires: seq<Wires>): Regs {
    Runs.Run(Step, r, wires)
  }

  // ----- one encryption, edge by edge

  /** k edges after the load edge: round key k is on the key wires, k - 1 full rounds are done,
      and after eleven edges the result is out. */
  predicate Busy(r: Regs, key: Block, x: Block, k: nat) {
    && k <= 11
    && KeyExpander.Holds(r.u0, key, k)
    && r.dcnt == 11 - k
    && r.done == (k == 11)
    && r.ldR == (k == 0)
    && r.textInR == x
    && (1 <= k <= 10 ==> r.sa == EncState(x, Schedule(key), k - 1))
    && (k == 11 ==> r.textOut == Cipher(key, x))
  }

  lemma LoadStarts(r: Regs, i: Wires)
    requires i.rst && i.ld
    ensures Busy(Step(r, i), i.key, i.textIn, 0)
  {
    hide AddKey, Round, LastRound, RoundKey;
    KeyExpander.LoadStarts(r.u0, i.key);
  }

  lemma EdgeAdvances(r: Regs, i: Wires, key: Block, x: Block, k: nat)
    requires Busy(r, key, x, k) && k < 11
    requires i.rst && !i.ld
    ensures Busy(Step(r, i), key, x, k + 1)
  {
    hide AddKey, Round, LastRound, KeyExpander.Step, RoundKey;
    KeyExpander.EdgeAdvances(r.u0, key, k, i.key);
    assert Schedule(key)[k] == RoundKey(key, k);
  }

  lemma BusyShows(r: Regs, key: Block, x: Block, k: nat)
    requires Busy(r, key, x, k)
    ensures r.done <==> k == 11
    ensures k == 11 ==> r.dcnt == 0 && r.textOut == Cipher(key, x)
  {
    hide Cipher, RoundKey, EncState;
  }

  /** A core that is not counting stays put and raises nothing. */
  predicate Idle(r: Regs) {
    r.dcnt == 0 && !r.done
  }

  /** `done` is not reset: an edge in reset that finds the last count raises it all the same. */
  lemma DoneRisesInReset(r: Regs, i: Wires)
    requires !i.rst && r.dcnt == 1 && !i.ld
    ensures Step(r, i).done && Step(r, i).dcnt == 0
  {
    hide AddKey, Round, LastRound, KeyExpander.Step;
  }

  /** One edge in reset leaves the core idle if and only if it does not find that count. */
  lemma OneResetEdgeIdlesIff(r: Regs, i: Wires)
    requires !i.rst
    ensures Idle(Step(r, i)) <==> !(r.dcnt == 1 && !i.ld)
  {
    hide AddKey, Round, LastRound, KeyExpander.Step;
  }

  lemma DoneThenIdle(r: Regs, i: Wires)
    requires i.rst && !i.ld && r.dcnt == 0
    ensures Idle(Step(r, i))
  {
    hide AddKey, Round, LastRound, KeyExpander.Step;
  }

  // ----- runs

  /** A load edge with reset released, then edges without a load. */
  predicate OneLoad(wires: seq<Wires>) {
    && |wires| > 0 && wires[0].ld
    && (forall i :: 0 <= i < |wires| ==> wires[i].rst)
    && (forall i :: 0 < i < |wires| ==> !wires[i].ld)
  }

  lemma {:induction false} RunAdvances(r: Regs, wires: seq<Wires>)
    requires OneLoad(wires) && |wires| <= 12
    ensures Busy(Run(r, wires), wires[0].key, wires[0].textIn, |wires| - 1)
  {
    hide Step, Busy;
    var n := |wires| - 1;
    if n == 0 {
      LoadStarts(r, wires[0]);
      assert wires[..0] == [] && Run(r, []) == r;
    } else {
      RunAdvances(r, wires[..n]);
      EdgeAdvances(Run(r, wires[..n]), wires[n], wires[0].key, wires[0].textIn, n - 1);
    }
  }

  /** Twelve edges compute the cipher of the key and text present at the load edge, whatever the
      registers held and whatever key and text are on the wires later; `done` rises with the
      twelfth edge and not before. */
  lemma TwelveEdgesEncrypt(r: Regs, wires: seq<Wires>)
    requires OneLoad(wires) && |wires| == 12
    ensures Run(r, wires).textOut == Cipher(wires[0].key, wires[0].textIn)
    ensures forall n :: 1 <= n <= 12 ==> (Run(r, wires[..n]).done <==> n == 12)
  {
    hide Run, RoundKey, EncState, Cipher;
    forall n | 1 <= n <= 12
      ensures Run(r, wires[..n]).done <==> n == 12
    {
      RunAdvances(r, wires[..n]);
    }
    RunAdvances(r, wires);
  }

  // ----- the module

  /** `aes_cipher_top`. */
  class AesCipherTop {
    const u0: KeyExpander.KeyExpand128
    var dcnt: Nibble
    var done: bool
    var ldR: bool
    var textInR: Block
    var sa: Block
    var textOut: Block

    constructor ()
      ensures fresh(u0) && fresh(u0.r0)
    {
      u0 := new KeyExpander.KeyExpand128();
    }

    ghost function Registers(): Regs
      reads this, u0, u0.r0
    {
      Regs(u0.Regs(), dcnt, done, ldR, textInR, sa, textOut)
    }

    method Edge(rst: bool, ld: bool, key: Block, textIn: Block)
      modifies this, u0, u0.r0
      ensures Registers() == Step(old(Registers()), Wires(rst, ld, key, textIn))
    {
      hide AddKey, ShiftRows, SubBytes, MixColumns, NextKey, Frcon;
      var w := Block(u0.w0, u0.w1, u0.w2, u0.w3);
      var sr := ShiftRows(SubBytes(sa));
      var next := AddKey(MixColumns(sr), w);

      // all right-hand sides read the registers as they were before the edge
      var dcnt' := dcnt;
      if !rst {
        dcnt' := 0;
      } else if ld {
        dcnt' := 11;
      } else if dcnt != 0 {
        dcnt' := dcnt - 1;
      }
      done := dcnt == 1 && !ld;
      dcnt := dcnt';
      sa := if ldR then AddKey(textInR, w) else next;
      textOut := AddKey(sr, w);
      if ld {
        textInR := textIn;
      }
      ldR := ld;
      u0.Edge(ld, key);
    }
  }
}
