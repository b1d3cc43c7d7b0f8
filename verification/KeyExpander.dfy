/**
 `aes_key_expand_128` and `aes_rcon` as clocked hardware: every register takes its next value
 from the values all registers held before the edge.
 */
module KeyExpander {
  import opened AesRounds
  import opened KeySchedule

  /** The registers w[0..3] of the expander with `out` and `rcnt` of its round-constant counter. */
  datatype KeyRegs = KeyRegs(w: Block, rcon: Word, rcnt: Nibble)

  function Step(r: KeyRegs, kld: bool, key: Block): KeyRegs {
    if kld then KeyRegs(key, Frcon(0), 0)
    else KeyRegs(NextKey(r.w, r.rcon), Frcon((r.rcnt + 1) % 16), (r.rcnt + 1) % 16)
  }

  /** k edges after the load edge of a key. */
  predicate Holds(r: KeyRegs, key: Block, k: nat) {
    k <= 10 ==> r.w == RoundKey(key, k) && r.rcon == Frcon(k) && r.rcnt == k
  }

  lemma LoadStarts(r: KeyRegs, key: Block)
    ensures Holds(Step(r, true, key), key, 0)
  {
  }

  lemma EdgeAdvances(r: KeyRegs, key: Block, k: nat, key': Block)
    requires Holds(r, key, k)
    ensures Holds(Step(r, false, key'), key, k + 1)
  {
    hide NextKey, Frcon;
  }

  /** `aes_rcon`. */
  class Rcon {
    var out: Word
    var rcnt: Nibble

    method Edge(kld: bool)
      modifies this
      ensures out == if kld then Frcon(0) else Frcon((old(rcnt) + 1) % 16)
      ensures rcnt == if kld then 0 else (old(rcnt) + 1) % 16
    {
      var next := (rcnt + 1) % 16;
      if kld {
        out := Word(0x01, 0, 0, 0);
      } else {
        out := Frcon(next);
      }
      if kld {
        rcnt := 0;
      } else {
        rcnt := next;
      }
    }
  }

  /** `aes_key_expand_128`. */
  class KeyExpand128 {
    const r0: Rcon
    var w0: Word
    var w1: Word
    var w2: Word
    var w3: Word

    constructor ()
      ensures fresh(r0)
    {
      r0 := new Rcon;
    }

    ghost function Regs(): KeyRegs
      reads this, r0
    {
      KeyRegs(Block(w0, w1, w2, w3), r0.out, r0.rcnt)
    }

    method Edge(kld: bool, key: Block)
      modifies this, r0
      ensures Regs() == Step(old(Regs()), kld, key)
    {
      var subword := SubRotWord(w3);
      var rcon := r0.out;
      if kld {
        w0, w1, w2, w3 := key.w0, key.w1, key.w2, key.w3;
      } else {
        w0, w1, w2, w3 :=
          XorWord(XorWord(w0, subword), rcon),
          XorWord(XorWord(XorWord(w0, w1), subword), rcon),
          XorWord(XorWord(XorWord(XorWord(w0, w2), w1), subword), rcon),
          XorWord(XorWord(XorWord(XorWord(XorWord(w0, w3), w2), w1), subword), rcon);
      }
      r0.Edge(kld);
    }
  }
}
