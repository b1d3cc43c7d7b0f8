/**
 The SPI master `SPI_master_v1_0`: a serialiser and deserialiser of any word width, clocked by a
 free-running divider, with TLAST deciding where the slave-select line rises.
 */
module SpiMaster {
  /** A register or bus; index j is bit j. */
  type Bits = seq<bool>

  /** The parameters WIDTH and CLOCK_DIVISOR. */
  datatype Config = Config(width: nat, divisor: nat)
  type Params = p: Config | p.width >= 1 witness Config(8, 4)

  datatype State = S0 | S1 | S2

  datatype Regs = Regs(
    mosi: bool,
    tx: Bits,
    rx: Bits,
    ready: bool,
    last: bool,
    lastBuff: bool,
    rxFull0: bool,
    rxFull1: bool,
    counter: nat,
    clk: nat,
    state: State,
    tvalid: bool,
    tdata: Bits
  )

  /** The input wires at one edge. */
  datatype Wires = Wires(resetn: bool, tvalid: bool, data: Bits, last: bool, miso: bool)

  function Clog2(n: nat): nat {
    if n <= 1 then 0 else 1 + Clog2((n + 1) / 2)
  }

  function Pow2(n: nat): (m: nat)
    ensures m >= 1
  {
    if n == 0 then 1 else 2 * Pow2(n - 1)
  }

  /** A register declared `[$clog2(n) : 0]` counts modulo this. */
  function Wrap(n: nat): (m: nat)
    ensures m >= 2
  {
    2 * Pow2(Clog2(n))
  }

  /** Such a register can hold n itself. */
  lemma {:induction false} FitsItsCounter(n: nat)
    ensures n < Wrap(n)
  {
    if n > 1 {
      FitsItsCounter((n + 1) / 2);
    }
  }

  /** One more, wrapping around. */
  function Count(c: nat, n: nat): (c': nat)
    requires c < Wrap(n)
    ensures c' < Wrap(n)
  {
    if c + 1 == Wrap(n) then 0 else c + 1
  }

  /** The widths of the registers. */
  predicate Fits(r: Regs, p: Params) {
    && |r.tx| == p.width && |r.rx| == p.width && |r.tdata| >= p.width
    && r.clk < Wrap(p.divisor) && r.counter < Wrap(p.width)
  }

  predicate WiresFit(i: Wires, p: Params) {
    |i.data| >= p.width
  }

  predicate Tick(r: Regs, p: Params) {
    r.clk == p.divisor
  }

  predicate Accepts(r: Regs, i: Wires) {
    i.resetn && i.tvalid && r.ready
  }

  predicate ByteEnds(r: Regs, p: Params) {
    r.state == S2 && r.counter == p.width
  }

  function ShiftIn(v: Bits, b: bool): (v': Bits)
    requires |v| > 0
    ensures |v'| == |v|
  {
    [b] + v[..|v| - 1]
  }

  /** What happens at every edge, tick or not. */
  function Always(r: Regs, i: Wires, p: Params): (r': Regs)
    requires Fits(r, p) && WiresFit(i, p)
    ensures Fits(r', p)
  {
    var taken := Accepts(r, i);
    r.(tx := if taken then i.data[..p.width] else r.tx,
       last := if taken then i.last else r.last,
       ready := r.ready && !taken,
       rxFull1 := r.rxFull0,
       rxFull0 := false,
       tvalid := r.rxFull0 && !r.rxFull1,
       clk := Count(r.clk, p.divisor))
  }

  /** What a tick overrides. */
  function AtTick(r: Regs, next: Regs, i: Wires, p: Params): (r': Regs)
    requires Fits(r, p) && Fits(next, p)
    ensures Fits(r', p)
  {
    FitsItsCounter(p.width);
    var msb := r.tx[p.width - 1];
    match r.state
    case S0 =>
      if r.ready then next.(mosi := false, rxFull0 := false)
      else next.(mosi := msb, rxFull0 := false, lastBuff := r.last, counter := 1, state := S1)
    case S1 =>
      var next' := next.(rx := ShiftIn(r.rx, i.miso), rxFull0 := false, state := S2);
      if r.counter != p.width then next'.(tx := ShiftIn(r.tx, false)) else next'.(ready := true)
    case S2 =>
      if r.counter != p.width then
        next.(mosi := msb, counter := Count(r.counter, p.width), state := S1)
      else
        var next' := next.(mosi := msb, tdata := r.rx + r.tdata[p.width..], rxFull0 := true);
        if !r.ready && !r.lastBuff then next'.(lastBuff := r.last, counter := 1, state := S1)
        else next'.(state := S0)
  }

  /** One rising clock edge. */
  function Step(r: Regs, i: Wires, p: Params): (r': Regs)
    requires Fits(r, p) && WiresFit(i, p)
    ensures Fits(r', p)
  {
    if !i.resetn then r.(tvalid := false, tdata := seq(|r.tdata|, _ => false), state := S0)
    else if Tick(r, p) then AtTick(r, Always(r, i, p), i, p)
    else Always(r, i, p)
  }

  // ----- what the two sides see

  /** A word taken from the input stream, or shown on the output stream, and its TLAST. */
  datatype Word = Word(bits: Bits, last: bool)

  /** The master and what happened at its pins. `frames` is what a slave records: a new frame
      whenever `ss` falls, one bit of `mosi` whenever `sclk` rises. `sampled` holds `miso` at the
      same moments. `begun` are the words whose transfer has started, one group per frame;
      `splits` counts the frames that began in the middle of a packet. */
  datatype Trace = Trace(
    hw: Regs,
    accepted: seq<Word>,
    begun: seq<seq<Word>>,
    splits: nat,
    frames: seq<seq<bool>>,
    sampled: seq<bool>,
    delivered: seq<Word>
  )

  function Extend<T>(gs: seq<seq<T>>, xs: seq<T>): (es: seq<seq<T>>)
    ensures |es| == if gs == [] then 1 else |gs|
  {
    if gs == [] then [xs] else gs[..|gs| - 1] + [gs[|gs| - 1] + xs]
  }

  function Flat<T>(gs: seq<seq<T>>): seq<T> {
    if gs == [] then [] else Flat(gs[..|gs| - 1]) + gs[|gs| - 1]
  }

  predicate SsFalls(r: Regs, r': Regs) {
    r.state == S0 && r'.state != S0
  }

  predicate SclkRises(r: Regs, r': Regs) {
    r.state != S2 && r'.state == S2
  }

  predicate WordBegins(r: Regs, p: Params) {
    Tick(r, p) && !r.ready && (r.state == S0 || (ByteEnds(r, p) && !r.lastBuff))
  }

  /** The word begun last ends no packet. */
  predicate MidPacket(ws: seq<Word>) {
    ws != [] && !ws[|ws| - 1].last
  }

  function TraceStep(t: Trace, i: Wires, p: Params): (t': Trace)
    requires Fits(t.hw, p) && WiresFit(i, p)
    ensures Fits(t'.hw, p)
  {
    var r := t.hw;
    var r' := Step(r, i, p);
    var word := Word(r.tx, r.last);
    Trace(
      r',
      if Accepts(r, i) then t.accepted + [Word(i.data[..p.width], i.last)] else t.accepted,
      if !i.resetn || !WordBegins(r, p) then t.begun
      else if r.state == S0 then t.begun + [[word]] else Extend(t.begun, [word]),
      if SsFalls(r, r') && MidPacket(Flat(t.begun)) then t.splits + 1 else t.splits,
      if SsFalls(r, r') then t.frames + [[]]
      else if SclkRises(r, r') then Extend(t.frames, [r.mosi]) else t.frames,
      if SclkRises(r, r') then t.sampled + [i.miso] else t.sampled,
      if r.tvalid then t.delivered + [Word(r.tdata[..p.width], true)] else t.delivered
    )
  }

  predicate AllFit(ins: seq<Wires>, p: Params) {
    forall k :: 0 <= k < |ins| ==> WiresFit(ins[k], p)
  }

  function Run(t: Trace, ins: seq<Wires>, p: Params): (t': Trace)
    requires Fits(t.hw, p) && AllFit(ins, p)
    ensures Fits(t'.hw, p)
  {
    if ins == [] then t else TraceStep(Run(t, ins[..|ins| - 1], p), ins[|ins| - 1], p)
  }

  // ----- what they have to be

  function MsbFirst(v: Bits): (s: seq<bool>)
    ensures |s| == |v|
  {
    seq(|v|, k requires 0 <= k < |v| => v[|v| - 1 - k])
  }

  /** The words one after another, most significant bit first. */
  function Spelled(ws: seq<Word>): seq<bool> {
    if ws == [] then [] else Spelled(ws[..|ws| - 1]) + MsbFirst(ws[|ws| - 1].bits)
  }

  function SpelledAll(gs: seq<seq<Word>>): (s: seq<seq<bool>>)
    ensures |s| == |gs|
  {
    seq(|gs|, k requires 0 <= k < |gs| => Spelled(gs[k]))
  }

  /** The words grouped into packets: a word opens a packet unless its predecessor left one open. */
  function Packets(ws: seq<Word>): (ps: seq<seq<Word>>)
    ensures ps == [] <==> ws == []
  {
    if ws == [] then []
    else
      var before, word := ws[..|ws| - 1], ws[|ws| - 1];
      if MidPacket(before) then Extend(Packets(before), [word]) else Packets(before) + [[word]]
  }

  lemma MsbFirstShiftIn(v: Bits, b: bool)
    ensures MsbFirst([b] + v) == MsbFirst(v) + [b]
  {
  }

  lemma FlatGrows<T>(gs: seq<seq<T>>, xs: seq<T>)
    ensures Flat(gs + [xs]) == Flat(gs) + xs
    ensures Flat(Extend(gs, xs)) == Flat(gs) + xs
  {
    assert (gs + [xs])[..|gs|] == gs;
    if gs == [] {
      assert Flat([xs]) == Flat([]) + xs;
    } else {
      assert Extend(gs, xs)[..|gs| - 1] == gs[..|gs| - 1];
    }
  }

  lemma SpelledGrows(ws: seq<Word>, w: Word)
    ensures Spelled(ws + [w]) == Spelled(ws) + MsbFirst(w.bits)
  {
    assert (ws + [w])[..|ws|] == ws;
  }

  lemma {:induction false} SpelledConcat(ws: seq<Word>, vs: seq<Word>)
    ensures Spelled(ws + vs) == Spelled(ws) + Spelled(vs)
  {
    hide MsbFirst;
    if vs == [] {
      assert ws + vs == ws;
    } else {
      var n := |vs| - 1;
      var bits := MsbFirst(vs[n].bits);
      calc {
        Spelled(ws + vs);
        { assert ws + vs == (ws + vs[..n]) + [vs[n]]; SpelledGrows(ws + vs[..n], vs[n]); }
        Spelled(ws + vs[..n]) + bits;
        { SpelledConcat(ws, vs[..n]); }
        Spelled(ws) + Spelled(vs[..n]) + bits;
        Spelled(ws) + Spelled(vs);
      }
    }
  }

  lemma {:induction false} FlatSpelled(gs: seq<seq<Word>>)
    ensures Flat(SpelledAll(gs)) == Spelled(Flat(gs))
  {
    if gs != [] {
      var n := |gs| - 1;
      FlatSpelled(gs[..n]);
      assert SpelledAll(gs)[..n] == SpelledAll(gs[..n]);
      SpelledConcat(Flat(gs[..n]), gs[n]);
    }
  }

  lemma PacketsGrow(ws: seq<Word>, w: Word)
    ensures Packets(ws + [w]) == if MidPacket(ws) then Extend(Packets(ws), [w]) else Packets(ws) + [[w]]
  {
    assert (ws + [w])[..|ws|] == ws;
  }

  // ----- the invariant

  predicate ControlOk(r: Regs, p: Params) {
    && (r.state != S0 ==> 1 <= r.counter <= p.width)
    && (r.state == S1 || (r.state == S2 && r.counter != p.width) ==> !r.ready)
    && (r.state == S1 ==> |r.tx| == p.width && r.mosi == r.tx[p.width - 1])
  }

  /** The word that has been accepted and not begun. */
  function Held(r: Regs, p: Params): seq<Word> {
    if !r.ready && (r.state == S0 || ByteEnds(r, p)) then [Word(r.tx, r.last)] else []
  }

  predicate AcceptedOk(t: Trace, p: Params) {
    && t.accepted == Flat(t.begun) + Held(t.hw, p)
    && (t.hw.state != S0 ==> t.begun != [] && Flat(t.begun) != [] && t.hw.lastBuff == !MidPacket(Flat(t.begun)))
  }

  /** The bits of the current word that have not been on the line at a rising `sclk`. */
  function Unsent(r: Regs, p: Params): seq<bool>
    requires Fits(r, p) && ControlOk(r, p)
  {
    match r.state
    case S0 => []
    case S1 => MsbFirst(r.tx)[..p.width - r.counter + 1]
    case S2 => MsbFirst(r.tx)[..p.width - r.counter]
  }

  predicate FramesOk(t: Trace, p: Params)
    requires Fits(t.hw, p) && ControlOk(t.hw, p)
  {
    if t.hw.state == S0 then t.frames == SpelledAll(t.begun)
    else t.frames != [] && Extend(t.frames, Unsent(t.hw, p)) == SpelledAll(t.begun)
  }

  predicate PacketsOk(t: Trace) {
    && (t.splits == 0 ==> t.begun == Packets(Flat(t.begun)))
    && |t.begun| == |Packets(Flat(t.begun))| + t.splits
  }

  /** A word is about to be shown on the output stream. */
  predicate AboutToShow(r: Regs) {
    r.rxFull0 && !r.rxFull1
  }

  /** The word on its way from `rx_buffer` to the output stream. */
  function Pipe(r: Regs, p: Params): seq<Word>
    requires Fits(r, p)
  {
    if AboutToShow(r) || r.tvalid then [Word(r.tdata[..p.width], true)] else []
  }

  predicate PipeOk(r: Regs, p: Params) {
    && (AboutToShow(r) ==> !r.tvalid && r.clk != p.divisor)
    && (r.rxFull0 || r.tvalid ==> r.state != S2)
  }

  /** The bits of the current word that have been sampled. */
  function Partial(r: Regs, p: Params): seq<bool>
    requires Fits(r, p) && ControlOk(r, p)
  {
    match r.state
    case S0 => []
    case S1 => MsbFirst(r.rx[..r.counter - 1])
    case S2 => MsbFirst(r.rx[..r.counter])
  }

  predicate SampledOk(t: Trace, p: Params)
    requires Fits(t.hw, p) && ControlOk(t.hw, p)
  {
    t.sampled == Spelled(t.delivered + Pipe(t.hw, p)) + Partial(t.hw, p)
  }

  predicate WordsFit(ws: seq<Word>, p: Params) {
    forall w :: w in ws ==> |w.bits| == p.width
  }

  /** What the sending side keeps. */
  predicate Sends(t: Trace, p: Params) {
    && Fits(t.hw, p) && ControlOk(t.hw, p)
    && AcceptedOk(t, p) && FramesOk(t, p) && PacketsOk(t) && WordsFit(t.accepted, p)
  }

  /** What the receiving side keeps. */
  predicate Receives(t: Trace, p: Params) {
    && Fits(t.hw, p) && ControlOk(t.hw, p)
    && PipeOk(t.hw, p) && SampledOk(t, p) && WordsFit(t.delivered, p)
  }

  lemma ControlKept(r: Regs, i: Wires, p: Params)
    requires Fits(r, p) && WiresFit(i, p) && ControlOk(r, p) && i.resetn
    ensures ControlOk(Step(r, i, p), p)
  {
    hide Wrap;
    FitsItsCounter(p.width);
  }

  lemma AlwaysKeeps(r: Regs, i: Wires, p: Params)
    requires Fits(r, p) && WiresFit(i, p)
    ensures var next := Always(r, i, p);
      && next.state == r.state && next.lastBuff == r.lastBuff && next.clk == Count(r.clk, p.divisor)
      && !next.rxFull0 && next.rxFull1 == r.rxFull0 && next.tvalid == (r.rxFull0 && !r.rxFull1) && next.tdata == r.tdata
  {
  }

  lemma PipeKept(r: Regs, i: Wires, p: Params)
    requires Fits(r, p) && WiresFit(i, p) && PipeOk(r, p) && i.resetn
    ensures PipeOk(Step(r, i, p), p)
  {
    hide Wrap, ShiftIn;
    AlwaysKeeps(r, i, p);
    hide Always;
  }

  /** A held word is begun or stays held, and a word is accepted only while none is held. */
  lemma HeldMoves(r: Regs, i: Wires, p: Params)
    requires Fits(r, p) && WiresFit(i, p) && ControlOk(r, p) && i.resetn
    ensures var word := if Accepts(r, i) then [Word(i.data[..p.width], i.last)] else [];
      Held(r, p) + word == (if WordBegins(r, p) then [Word(r.tx, r.last)] else []) + Held(Step(r, i, p), p)
  {
    hide Wrap, ShiftIn, Count, Fits;
  }

  /** `last_buff` changes when a word begins, and then to the TLAST of that word. */
  lemma LastBuffMoves(r: Regs, i: Wires, p: Params)
    requires Fits(r, p) && WiresFit(i, p) && i.resetn
    ensures var r' := Step(r, i, p);
      if WordBegins(r, p) then r'.state != S0 && r'.lastBuff == r.last
      else r'.lastBuff == r.lastBuff && (r.state == S0 ==> r'.state == S0)
  {
    hide Wrap, ShiftIn, Count;
    AlwaysKeeps(r, i, p);
    hide Always;
  }

  lemma AcceptedKept(t: Trace, i: Wires, p: Params)
    requires Fits(t.hw, p) && WiresFit(i, p) && ControlOk(t.hw, p) && i.resetn
    requires AcceptedOk(t, p)
    ensures AcceptedOk(TraceStep(t, i, p), p)
  {
    hide Step, Flat, Held, Extend;
    var r := t.hw;
    var taken := if Accepts(r, i) then [Word(i.data[..p.width], i.last)] else [];
    var started := if WordBegins(r, p) then [Word(r.tx, r.last)] else [];
    HeldMoves(r, i, p);
    LastBuffMoves(r, i, p);
    FlatGrows(t.begun, [Word(r.tx, r.last)]);
    var t' := TraceStep(t, i, p);
    calc {
      t'.accepted;
      Flat(t.begun) + Held(r, p) + taken;
      Flat(t.begun) + (Held(r, p) + taken);
      Flat(t.begun) + (started + Held(t'.hw, p));
      Flat(t.begun) + started + Held(t'.hw, p);
      { assert Flat(t.begun) + [] == Flat(t.begun); }
      Flat(t'.begun) + Held(t'.hw, p);
    }
  }

  lemma PacketsKept(t: Trace, i: Wires, p: Params)
    requires Fits(t.hw, p) && WiresFit(i, p) && ControlOk(t.hw, p) && i.resetn
    requires AcceptedOk(t, p) && PacketsOk(t)
    ensures PacketsOk(TraceStep(t, i, p))
  {
    hide Wrap, ShiftIn, Flat, Packets;
    FlatGrows(t.begun, [Word(t.hw.tx, t.hw.last)]);
    PacketsGrow(Flat(t.begun), Word(t.hw.tx, t.hw.last));
  }

  lemma SpelledAllOpens(gs: seq<seq<Word>>, w: Word)
    ensures SpelledAll(gs + [[w]]) == SpelledAll(gs) + [MsbFirst(w.bits)]
  {
    hide MsbFirst;
    SpelledGrows([], w);
    assert [] + [w] == [w];
    assert Spelled([w]) == MsbFirst(w.bits);
  }

  lemma SpelledAllGrows(gs: seq<seq<Word>>, w: Word)
    requires gs != []
    ensures SpelledAll(Extend(gs, [w])) == Extend(SpelledAll(gs), MsbFirst(w.bits))
  {
    hide MsbFirst, Spelled;
    SpelledGrows(gs[|gs| - 1], w);
  }

  lemma ExtendByNothing<T>(gs: seq<seq<T>>)
    requires gs != []
    ensures Extend(gs, []) == gs
  {
    assert gs[|gs| - 1] + [] == gs[|gs| - 1];
  }

  lemma ExtendANewOne<T>(gs: seq<seq<T>>, xs: seq<T>)
    ensures Extend(gs + [[]], xs) == gs + [xs]
  {
    assert [] + xs == xs;
  }

  lemma ExtendTwice<T>(gs: seq<seq<T>>, xs: seq<T>, ys: seq<T>)
    ensures Extend(Extend(gs, xs), ys) == Extend(gs, xs + ys)
  {
    if gs != [] {
      assert gs[|gs| - 1] + xs + ys == gs[|gs| - 1] + (xs + ys);
    }
  }

  /** The bit at the end of the register goes first, and a shift brings the next one there. */
  lemma UnsentShift(v: Bits, b: bool, k: nat)
    requires 1 <= k <= |v|
    ensures MsbFirst(v)[..k] == [v[|v| - 1]] + MsbFirst(ShiftIn(v, b))[..k - 1]
  {
  }

  lemma UnsentRises(r: Regs, i: Wires, p: Params)
    requires Fits(r, p) && WiresFit(i, p) && ControlOk(r, p) && i.resetn && Tick(r, p) && r.state == S1
    requires ControlOk(Step(r, i, p), p)
    ensures Unsent(r, p) == [r.mosi] + Unsent(Step(r, i, p), p)
  {
    hide Wrap, ShiftIn, MsbFirst;
    UnsentShift(r.tx, false, p.width - r.counter + 1);
  }

  lemma UnsentMoves(r: Regs, i: Wires, p: Params)
    requires Fits(r, p) && WiresFit(i, p) && ControlOk(r, p) && i.resetn
    requires ControlOk(Step(r, i, p), p)
    requires r.state != S1 || !Tick(r, p)
    ensures var r' := Step(r, i, p);
      if WordBegins(r, p) then Unsent(r, p) == [] && Unsent(r', p) == MsbFirst(r.tx)
      else Unsent(r', p) == Unsent(r, p) && (r'.state == S0 ==> Unsent(r, p) == [])
  {
    hide Wrap, ShiftIn, MsbFirst;
    FitsItsCounter(p.width);
  }

  lemma FramesKept(t: Trace, i: Wires, p: Params)
    requires Fits(t.hw, p) && WiresFit(i, p) && ControlOk(t.hw, p) && i.resetn
    requires AcceptedOk(t, p) && FramesOk(t, p)
    ensures ControlOk(Step(t.hw, i, p), p)
    ensures FramesOk(TraceStep(t, i, p), p)
  {
    hide MsbFirst, Spelled, SpelledAll, Flat, Unsent, Wrap, ShiftIn, Extend;
    var r := t.hw;
    var r' := Step(r, i, p);
    ControlKept(r, i, p);
    if Tick(r, p) && r.state == S1 {
      UnsentRises(r, i, p);
      ExtendTwice(t.frames, [r.mosi], Unsent(r', p));
    } else {
      UnsentMoves(r, i, p);
      if r.state != S0 {
        ExtendByNothing(t.frames);
      }
      if WordBegins(r, p) {
        if r.state == S0 {
          ExtendANewOne(t.frames, MsbFirst(r.tx));
          SpelledAllOpens(t.begun, Word(r.tx, r.last));
        } else {
          SpelledAllGrows(t.begun, Word(r.tx, r.last));
        }
      }
    }
  }

  /** A word goes from the register into the pipe when its last clock falls, and from the pipe to
      the output stream. */
  lemma PipeMoves(t: Trace, i: Wires, p: Params)
    requires Fits(t.hw, p) && WiresFit(i, p) && PipeOk(t.hw, p) && i.resetn
    ensures var r := t.hw; var t' := TraceStep(t, i, p);
      t'.delivered + Pipe(t'.hw, p)
        == t.delivered + Pipe(r, p) + if Tick(r, p) && ByteEnds(r, p) then [Word(r.rx, true)] else []
  {
    hide Wrap, ShiftIn, Flat, Extend;
    var r := t.hw;
    if Tick(r, p) && ByteEnds(r, p) {
      assert (r.rx + r.tdata[p.width..])[..p.width] == r.rx;
    }
  }

  lemma PartialMoves(r: Regs, i: Wires, p: Params)
    requires Fits(r, p) && WiresFit(i, p) && ControlOk(r, p) && i.resetn
    requires ControlOk(Step(r, i, p), p)
    ensures var r' := Step(r, i, p);
      if SclkRises(r, r') then Partial(r', p) == Partial(r, p) + [i.miso]
      else if Tick(r, p) && ByteEnds(r, p) then Partial(r, p) == MsbFirst(r.rx) && Partial(r', p) == []
      else Partial(r', p) == Partial(r, p)
  {
    hide Wrap, MsbFirst;
    FitsItsCounter(p.width);
    if Tick(r, p) && r.state == S1 {
      MsbFirstShiftIn(r.rx[..r.counter - 1], i.miso);
      assert ShiftIn(r.rx, i.miso)[..r.counter] == [i.miso] + r.rx[..r.counter - 1];
    } else if Tick(r, p) && ByteEnds(r, p) {
      assert r.rx[..r.counter] == r.rx;
    }
  }

  lemma SampledKept(t: Trace, i: Wires, p: Params)
    requires Fits(t.hw, p) && WiresFit(i, p) && ControlOk(t.hw, p) && PipeOk(t.hw, p) && i.resetn
    requires SampledOk(t, p)
    ensures ControlOk(Step(t.hw, i, p), p)
    ensures SampledOk(TraceStep(t, i, p), p)
  {
    hide Step, Spelled, MsbFirst, Pipe, Partial, Flat, Extend, PipeOk;
    ControlKept(t.hw, i, p);
    PipeMoves(t, i, p);
    PartialMoves(t.hw, i, p);
    var sent := t.delivered + Pipe(t.hw, p);
    SpelledGrows(sent, Word(t.hw.rx, true));
    assert sent + [] == sent;
    assert Spelled(sent) + Partial(t.hw, p) + [i.miso] == Spelled(sent) + (Partial(t.hw, p) + [i.miso]);
    assert Spelled(sent) + MsbFirst(t.hw.rx) == Spelled(sent) + MsbFirst(t.hw.rx) + [];
  }

  lemma SendsKept(t: Trace, i: Wires, p: Params)
    requires Sends(t, p) && WiresFit(i, p) && i.resetn
    ensures Sends(TraceStep(t, i, p), p)
  {
    hide ControlOk, AcceptedOk, FramesOk, PacketsOk, Step;
    ControlKept(t.hw, i, p);
    AcceptedKept(t, i, p);
    FramesKept(t, i, p);
    PacketsKept(t, i, p);
  }

  lemma ReceivesKept(t: Trace, i: Wires, p: Params)
    requires Receives(t, p) && WiresFit(i, p) && i.resetn
    ensures Receives(TraceStep(t, i, p), p)
  {
    hide ControlOk, PipeOk, SampledOk, Step;
    ControlKept(t.hw, i, p);
    PipeKept(t.hw, i, p);
    SampledKept(t, i, p);
  }

  // ----- every reachable state

  /** Reset leaves `spi_ready` alone: a word still in the register will be sent. */
  function Start(h: Regs): Trace {
    Trace(h, if h.ready then [] else [Word(h.tx, h.last)], [], 0, [], [], [])
  }

  /** One edge in reset starts the sending side from any registers. */
  lemma ResetStartsSending(r: Regs, i: Wires, p: Params)
    requires Fits(r, p) && WiresFit(i, p) && !i.resetn
    ensures Sends(Start(Step(r, i, p)), p)
  {
    hide Wrap, MsbFirst;
  }

  /** It starts the receiving side if and only if no word was about to be shown: reset leaves
      `rx_full` alone. */
  lemma ResetStartsReceivingIff(r: Regs, i: Wires, p: Params)
    requires Fits(r, p) && WiresFit(i, p) && !i.resetn
    ensures Receives(Start(Step(r, i, p)), p) <==> !AboutToShow(r)
  {
    hide Wrap, MsbFirst;
    var t := Start(Step(r, i, p));
    if AboutToShow(r) {
      assert |Spelled([] + Pipe(t.hw, p))| == p.width by {
        SpelledGrows([], Pipe(t.hw, p)[0]);
      }
    }
  }

  predicate Released(ins: seq<Wires>) {
    forall k :: 0 <= k < |ins| ==> ins[k].resetn
  }

  lemma {:induction false} SendsAlong(t: Trace, ins: seq<Wires>, p: Params)
    requires Sends(t, p) && AllFit(ins, p) && Released(ins)
    ensures Sends(Run(t, ins, p), p)
  {
    hide TraceStep, ControlOk, AcceptedOk, FramesOk, PacketsOk, WordsFit;
    if ins != [] {
      var n := |ins| - 1;
      SendsAlong(t, ins[..n], p);
      SendsKept(Run(t, ins[..n], p), ins[n], p);
    }
  }

  lemma {:induction false} ReceivesAlong(t: Trace, ins: seq<Wires>, p: Params)
    requires Receives(t, p) && AllFit(ins, p) && Released(ins)
    ensures Receives(Run(t, ins, p), p)
  {
    hide TraceStep, ControlOk, PipeOk, SampledOk, WordsFit;
    if ins != [] {
      var n := |ins| - 1;
      ReceivesAlong(t, ins[..n], p);
      ReceivesKept(Run(t, ins[..n], p), ins[n], p);
    }
  }

  // ----- the results

  /** Slave deselected and nothing waiting. */
  predicate AtRest(r: Regs) {
    r.state == S0 && r.ready
  }

  /** In every reachable state the bits on `mosi` at the rising edges of `sclk` spell the accepted
      words in order, most significant bit first; at rest they spell all of them. */
  lemma LineSpellsWords(t: Trace, p: Params)
    requires Sends(t, p)
    ensures Flat(t.frames) <= Spelled(t.accepted)
    ensures AtRest(t.hw) ==> Flat(t.frames) == Spelled(t.accepted)
  {
    hide ControlOk, PacketsOk, WordsFit, Unsent, SpelledAll, Spelled, Flat, Extend;
    FlatSpelled(t.begun);
    SpelledConcat(Flat(t.begun), Held(t.hw, p));
    if t.hw.state == S0 {
      assert Flat(t.begun) + [] == Flat(t.begun);
    } else {
      FlatGrows(t.frames, Unsent(t.hw, p));
    }
  }

  lemma {:induction false} SpelledLength(ws: seq<Word>, p: Params)
    requires WordsFit(ws, p)
    ensures |Spelled(ws)| == p.width * |ws|
  {
    hide MsbFirst;
    if ws != [] {
      var n := |ws| - 1;
      SpelledLength(ws[..n], p);
      assert |MsbFirst(ws[n].bits)| == p.width;
      assert p.width * (n + 1) == p.width * n + p.width;
    }
  }

  /** `sclk` rises WIDTH times for each word. */
  lemma WidthRisesPerWord(t: Trace, p: Params)
    requires Sends(t, p) && AtRest(t.hw)
    ensures |Flat(t.frames)| == p.width * |t.accepted|
  {
    hide ControlOk, PacketsOk, FramesOk, AcceptedOk, Flat, Spelled;
    LineSpellsWords(t, p);
    SpelledLength(t.accepted, p);
  }

  /** At rest `ss` has been low exactly once for each packet, across the whole of it, if and only
      if no frame began in the middle of a packet. */
  lemma FramesArePackets(t: Trace, p: Params)
    requires Sends(t, p) && AtRest(t.hw)
    ensures t.frames == SpelledAll(Packets(t.accepted)) <==> t.splits == 0
  {
    hide ControlOk, WordsFit, Packets, Flat, SpelledAll;
    assert Flat(t.begun) + [] == Flat(t.begun);
  }

  /** The word whose transfer ends at this tick ends no packet, and the next has not been accepted. */
  predicate Late(r: Regs, p: Params) {
    Tick(r, p) && ByteEnds(r, p) && r.ready && !r.lastBuff
  }

  /** The slave is deselected in the middle of a packet. */
  predicate Parted(t: Trace) {
    t.hw.state == S0 && MidPacket(Flat(t.begun))
  }

  function Begun(t: Trace): nat {
    |Flat(t.begun)|
  }

  lemma PartedMoves(t: Trace, i: Wires, p: Params)
    requires Sends(t, p) && WiresFit(i, p) && i.resetn
    ensures var t' := TraceStep(t, i, p); var begins := WordBegins(t.hw, p);
      && (Parted(t') <==> Late(t.hw, p) || (Parted(t) && !begins))
      && t'.splits == t.splits + (if Parted(t) && begins then 1 else 0)
      && Begun(t') == Begun(t) + if begins then 1 else 0
    ensures Late(t.hw, p) ==> !WordBegins(t.hw, p) && t.accepted == Flat(t.begun)
  {
    hide Wrap, ShiftIn, Flat, FramesOk, PacketsOk, WordsFit, Extend;
    FlatGrows(t.begun, [Word(t.hw.tx, t.hw.last)]);
  }

  predicate LateAt(t: Trace, ins: seq<Wires>, k: nat, p: Params)
    requires Fits(t.hw, p) && AllFit(ins, p) && k <= |ins|
  {
    Late(Run(t, ins[..k], p).hw, p)
  }

  function BegunAt(t: Trace, ins: seq<Wires>, k: nat, p: Params): nat
    requires Fits(t.hw, p) && AllFit(ins, p) && k <= |ins|
  {
    Begun(Run(t, ins[..k], p))
  }

  lemma RunGrows(t: Trace, ins: seq<Wires>, n: nat, p: Params)
    requires Fits(t.hw, p) && AllFit(ins, p) && n < |ins|
    ensures Run(t, ins[..n + 1], p) == TraceStep(Run(t, ins[..n], p), ins[n], p)
  {
    hide TraceStep;
    assert ins[..n + 1][..n] == ins[..n];
  }

  /** No frame begins in the middle of a packet as long as no word begins after a late edge, and the
      slave is deselected in the middle of one if none has begun since such an edge. */
  lemma {:induction false} SplitsAlong(t: Trace, ins: seq<Wires>, n: nat, p: Params)
    requires Sends(t, p) && AllFit(ins, p) && Released(ins) && n <= |ins| && t.splits == 0 && !Parted(t)
    ensures var u := Run(t, ins[..n], p); var begun := BegunAt(t, ins, n, p);
      && (u.splits == 0 <==> forall k :: 0 <= k < n && LateAt(t, ins, k, p) ==> BegunAt(t, ins, k, p) == begun)
      && (Parted(u) <==> exists k :: 0 <= k < n && LateAt(t, ins, k, p) && BegunAt(t, ins, k, p) == begun)
      && (forall k :: 0 <= k < n ==> BegunAt(t, ins, k, p) <= begun)
  {
    hide ControlOk, AcceptedOk, FramesOk, PacketsOk, WordsFit, TraceStep, Parted, Late, WordBegins, Begun;
    if n == 0 {
      assert ins[..0] == [];
    } else {
      var m := n - 1;
      SplitsAlong(t, ins, m, p);
      SendsAlong(t, ins[..m], p);
      RunGrows(t, ins, m, p);
      PartedMoves(Run(t, ins[..m], p), ins[m], p);
    }
  }

  lemma AcceptedMoves(t: Trace, i: Wires, p: Params)
    requires Fits(t.hw, p) && WiresFit(i, p)
    ensures t.accepted <= TraceStep(t, i, p).accepted
  {
    hide Step, Flat, Extend;
  }

  lemma {:induction false} AcceptedGrows(t: Trace, ins: seq<Wires>, k: nat, n: nat, p: Params)
    requires Fits(t.hw, p) && AllFit(ins, p) && k <= n <= |ins|
    ensures Run(t, ins[..k], p).accepted <= Run(t, ins[..n], p).accepted
  {
    hide Run, TraceStep;
    if k < n {
      AcceptedGrows(t, ins, k, n - 1, p);
      RunGrows(t, ins, n - 1, p);
      AcceptedMoves(Run(t, ins[..n - 1], p), ins[n - 1], p);
    }
  }

  /** With the register empty, as at a late edge and at rest, every accepted word has been begun. */
  lemma EmptyIsEven(t: Trace, p: Params)
    requires Sends(t, p) && t.hw.ready
    ensures |t.accepted| == Begun(t)
  {
    assert Flat(t.begun) + [] == Flat(t.begun);
  }

  lemma NoneSinceIff(t: Trace, ins: seq<Wires>, k: nat, p: Params)
    requires Sends(t, p) && AllFit(ins, p) && Released(ins) && k < |ins| && LateAt(t, ins, k, p)
    requires AtRest(Run(t, ins, p).hw)
    ensures Run(t, ins[..k], p).accepted == Run(t, ins, p).accepted
       <==> BegunAt(t, ins, k, p) == BegunAt(t, ins, |ins|, p)
  {
    hide ControlOk, AcceptedOk, FramesOk, PacketsOk, WordsFit, Run, Begun;
    assert ins[..|ins|] == ins;
    SendsAlong(t, ins[..k], p);
    SendsAlong(t, ins, p);
    EmptyIsEven(Run(t, ins[..k], p), p);
    EmptyIsEven(Run(t, ins, p), p);
    AcceptedGrows(t, ins, k, |ins|, p);
  }

  lemma NoSplitsIff(t: Trace, ins: seq<Wires>, p: Params)
    requires Sends(t, p) && AllFit(ins, p) && Released(ins) && t.splits == 0 && !Parted(t)
    requires AtRest(Run(t, ins, p).hw)
    ensures Run(t, ins, p).splits == 0 <==>
      forall k :: 0 <= k < |ins| && LateAt(t, ins, k, p) ==> Run(t, ins[..k], p).accepted == Run(t, ins, p).accepted
  {
    hide ControlOk, AcceptedOk, FramesOk, PacketsOk, WordsFit, Run, Parted, AtRest, LateAt, BegunAt;
    SplitsAlong(t, ins, |ins|, p);
    assert ins[..|ins|] == ins;
    forall k | 0 <= k < |ins| && LateAt(t, ins, k, p)
      ensures Run(t, ins[..k], p).accepted == Run(t, ins, p).accepted
         <==> BegunAt(t, ins, k, p) == BegunAt(t, ins, |ins|, p)
    {
      NoneSinceIff(t, ins, k, p);
    }
  }

  /** A run from reset that ends at rest: the frames are the packets, each one `ss`-low period with
      the bits of its words, most significant bit first, if and only if no word is accepted any more
      once the master has run out of words in the middle of a packet. */
  lemma FramesArePacketsIff(r: Regs, i: Wires, ins: seq<Wires>, p: Params)
    requires Fits(r, p) && WiresFit(i, p) && !i.resetn
    requires AllFit(ins, p) && Released(ins) && AtRest(Run(Start(Step(r, i, p)), ins, p).hw)
    ensures var t0 := Start(Step(r, i, p)); var t := Run(t0, ins, p);
      t.frames == SpelledAll(Packets(t.accepted)) <==>
        forall k :: 0 <= k < |ins| && LateAt(t0, ins, k, p) ==> Run(t0, ins[..k], p).accepted == t.accepted
  {
    var t0 := Start(Step(r, i, p));
    ResetStartsSending(r, i, p);
    assert !Parted(t0) && t0.splits == 0;
    hide Step, Start, ControlOk, AcceptedOk, FramesOk, PacketsOk, WordsFit, Run, AtRest, LateAt, Parted,
      SpelledAll, Packets;
    NoSplitsIff(t0, ins, p);
    SendsAlong(t0, ins, p);
    FramesArePackets(Run(t0, ins, p), p);
  }

  /** No word of a packet is late: each is accepted before the last tick of its predecessor. */
  predicate InTime(t: Trace, ins: seq<Wires>, p: Params)
    requires Fits(t.hw, p) && AllFit(ins, p)
  {
    forall k :: 0 <= k < |ins| ==> !LateAt(t, ins, k, p)
  }

  /** Then every packet is one `ss`-low period. */
  lemma PacketsOnTheLine(r: Regs, i: Wires, ins: seq<Wires>, p: Params)
    requires Fits(r, p) && WiresFit(i, p) && !i.resetn
    requires AllFit(ins, p) && Released(ins) && InTime(Start(Step(r, i, p)), ins, p)
    ensures var t := Run(Start(Step(r, i, p)), ins, p);
      AtRest(t.hw) ==> t.frames == SpelledAll(Packets(t.accepted))
  {
    hide Step, Run, LateAt, SpelledAll, Packets, AtRest;
    if AtRest(Run(Start(Step(r, i, p)), ins, p).hw) {
      FramesArePacketsIff(r, i, ins, p);
    }
  }

  // ----- the receiving side

  /** Every word on the output stream holds the next WIDTH bits sampled from `miso`, first bit on
      top; at rest, with nothing in the pipe, every sampled bit has been delivered. */
  lemma DeliversWhatItSampled(t: Trace, p: Params)
    requires Receives(t, p)
    ensures Spelled(t.delivered) <= t.sampled
    ensures AtRest(t.hw) && Pipe(t.hw, p) == [] ==> Spelled(t.delivered) == t.sampled
  {
    hide ControlOk, PipeOk, WordsFit, Spelled, Pipe;
    SpelledConcat(t.delivered, Pipe(t.hw, p));
    assert t.delivered + [] == t.delivered;
  }

  lemma SpelledHead(ws: seq<Word>)
    requires ws != []
    ensures Spelled(ws) == MsbFirst(ws[0].bits) + Spelled(ws[1..])
  {
    hide MsbFirst;
    SpelledConcat(ws[..1], ws[1..]);
    assert ws == ws[..1] + ws[1..];
    assert ws[..1][..0] == [];
  }

  lemma MsbFirstInjective(v: Bits, u: Bits)
    requires MsbFirst(v) == MsbFirst(u)
    ensures v == u
  {
    assert |v| == |u|;
    forall k | 0 <= k < |v|
      ensures v[k] == u[k]
    {
      assert MsbFirst(v)[|v| - 1 - k] == MsbFirst(u)[|u| - 1 - k];
    }
  }

  /** Words of one width are determined by what they spell. */
  lemma {:induction false} SpelledPrefix(ws: seq<Word>, vs: seq<Word>, p: Params)
    requires WordsFit(ws, p) && WordsFit(vs, p)
    requires Spelled(ws) <= Spelled(vs)
    ensures |ws| <= |vs|
    ensures forall k :: 0 <= k < |ws| ==> ws[k].bits == vs[k].bits
  {
    hide MsbFirst;
    if ws != [] {
      SpelledHead(ws);
      assert vs != [];
      SpelledHead(vs);
      var w, v := MsbFirst(ws[0].bits), MsbFirst(vs[0].bits);
      assert w == Spelled(ws)[..p.width] && v == Spelled(vs)[..p.width];
      MsbFirstInjective(ws[0].bits, vs[0].bits);
      assert Spelled(ws[1..]) == Spelled(ws)[p.width..] && Spelled(vs[1..]) == Spelled(vs)[p.width..];
      SpelledPrefix(ws[1..], vs[1..], p);
    }
  }

  /** `miso` is tied to `mosi`. */
  predicate Looped(t: Trace, ins: seq<Wires>, p: Params)
    requires Fits(t.hw, p) && AllFit(ins, p)
  {
    forall k :: 0 <= k < |ins| ==> ins[k].miso == Run(t, ins[..k], p).hw.mosi
  }

  /** `ss` falls half a clock before the first rising edge of `sclk`. */
  lemma SsFallsFirst(r: Regs, i: Wires, p: Params)
    requires Fits(r, p) && WiresFit(i, p) && r.state == S0
    ensures Step(r, i, p).state != S2
  {
    hide Wrap, ShiftIn, Count;
    AlwaysKeeps(r, i, p);
    hide Always;
  }

  lemma LoopSamplesTheBit(t: Trace, i: Wires, p: Params)
    requires Fits(t.hw, p) && WiresFit(i, p)
    requires t.sampled == Flat(t.frames) && i.miso == t.hw.mosi
    ensures TraceStep(t, i, p).sampled == Flat(TraceStep(t, i, p).frames)
  {
    hide Step, Flat, Extend;
    if t.hw.state == S0 {
      SsFallsFirst(t.hw, i, p);
    }
    FlatGrows(t.frames, []);
    FlatGrows(t.frames, [t.hw.mosi]);
    assert t.sampled + [] == t.sampled;
  }

  lemma {:induction false} LoopSamplesTheLine(t: Trace, ins: seq<Wires>, p: Params)
    requires Fits(t.hw, p) && AllFit(ins, p) && Looped(t, ins, p)
    requires t.sampled == Flat(t.frames)
    ensures Run(t, ins, p).sampled == Flat(Run(t, ins, p).frames)
  {
    hide TraceStep, Flat;
    if ins != [] {
      var n := |ins| - 1;
      forall k | 0 <= k < n
        ensures ins[..n][k].miso == Run(t, ins[..n][..k], p).hw.mosi
      {
        assert ins[..n][..k] == ins[..k];
      }
      LoopSamplesTheLine(t, ins[..n], p);
      LoopSamplesTheBit(Run(t, ins[..n], p), ins[n], p);
    }
  }

  /** What has come back had been on the line, and is the accepted words in order; at rest, with
      nothing in the pipe, all of them are back. */
  predicate Returned(t: Trace, p: Params)
    requires Fits(t.hw, p)
  {
    && Spelled(t.delivered) <= Flat(t.frames)
    && |t.delivered| <= |t.accepted|
    && (forall k :: 0 <= k < |t.delivered| ==> t.delivered[k].bits == t.accepted[k].bits)
    && (AtRest(t.hw) && Pipe(t.hw, p) == [] ==> |t.delivered| == |t.accepted|)
  }

  /** With `miso` tied to `mosi` the delivered words are the accepted words. */
  lemma LoopbackReturnsWords(r: Regs, i: Wires, ins: seq<Wires>, p: Params)
    requires Fits(r, p) && WiresFit(i, p) && !i.resetn && !AboutToShow(r)
    requires AllFit(ins, p) && Released(ins) && Looped(Start(Step(r, i, p)), ins, p)
    ensures Returned(Run(Start(Step(r, i, p)), ins, p), p)
  {
    var t := Start(Step(r, i, p));
    ResetStartsSending(r, i, p);
    ResetStartsReceivingIff(r, i, p);
    hide Step, TraceStep, Run, Spelled, ControlOk, PipeOk, AcceptedOk, FramesOk, PacketsOk, SampledOk, Pipe;
    var t' := Run(t, ins, p);
    SendsAlong(t, ins, p);
    ReceivesAlong(t, ins, p);
    LoopSamplesTheLine(t, ins, p);
    LineSpellsWords(t', p);
    DeliversWhatItSampled(t', p);
    SpelledPrefix(t'.delivered, t'.accepted, p);
    if AtRest(t'.hw) && Pipe(t'.hw, p) == [] {
      SpelledPrefix(t'.accepted, t'.delivered, p);
    }
  }

  /** The output shows a word of zeros before anything has been on the line. */
  predicate ShowsZeros(t: Trace, p: Params)
    requires Fits(t.hw, p)
  {
    && t.hw.tvalid && t.hw.tdata[..p.width] == seq(p.width, _ => false)
    && t.delivered == [] && t.sampled == [] && Flat(t.frames) == []
    && (t.hw.state == S0 || (t.hw.state == S1 && !Tick(t.hw, p)))
  }

  lemma ResetShowsZeros(r: Regs, i: Wires, w: Wires, p: Params)
    requires Fits(r, p) && WiresFit(i, p) && !i.resetn && AboutToShow(r)
    requires WiresFit(w, p) && w.resetn
    ensures ShowsZeros(TraceStep(Start(Step(r, i, p)), w, p), p)
  {
    var t := Start(Step(r, i, p));
    AlwaysKeeps(t.hw, w, p);
    hide Wrap, ShiftIn, Always, Extend;
    assert t.hw.tdata[..p.width] == seq(p.width, _ => false);
    FlatGrows<bool>([], []);
  }

  lemma ZerosAreDelivered(t: Trace, w: Wires, p: Params)
    requires Fits(t.hw, p) && ShowsZeros(t, p) && WiresFit(w, p) && w.resetn
    ensures var t' := TraceStep(t, w, p);
      && t'.delivered == [Word(seq(p.width, _ => false), true)]
      && t'.sampled == [] && Flat(t'.frames) == []
  {
    AlwaysKeeps(t.hw, w, p);
    hide Wrap, ShiftIn, Always, Extend, Flat;
    FlatGrows(t.frames, []);
  }

  /** A reset that finds a word about to be shown: two edges later a word of zeros has been
      delivered that was never sampled. */
  lemma ZeroWordAfterReset(r: Regs, i: Wires, w: Wires, w': Wires, p: Params)
    requires Fits(r, p) && WiresFit(i, p) && !i.resetn && AboutToShow(r)
    requires WiresFit(w, p) && WiresFit(w', p) && w.resetn && w'.resetn
    ensures var t := TraceStep(TraceStep(Start(Step(r, i, p)), w, p), w', p);
      && t.delivered == [Word(seq(p.width, _ => false), true)]
      && t.sampled == [] && Flat(t.frames) == []
  {
    ResetShowsZeros(r, i, w, p);
    hide Step, TraceStep, ShowsZeros, AboutToShow;
    ZerosAreDelivered(TraceStep(Start(Step(r, i, p)), w, p), w', p);
  }

  lemma RunOfTwo(t: Trace, w: Wires, w': Wires, p: Params)
    requires Fits(t.hw, p) && AllFit([w, w'], p)
    requires w.miso == t.hw.mosi && WiresFit(w, p) && w'.miso == TraceStep(t, w, p).hw.mosi
    ensures Looped(t, [w, w'], p) && WiresFit(w', p)
    ensures Run(t, [w, w'], p) == TraceStep(TraceStep(t, w, p), w', p)
  {
    hide TraceStep;
    var ins := [w, w'];
    assert ins[0] == w && ins[1] == w';
    assert ins[..0] == [] && ins[..1] == [w] && [w][..0] == [];
    assert Run(t, [w], p) == TraceStep(t, w, p);
  }

  /** A word that was never on the line cannot have been returned. */
  lemma NeverSent(t: Trace, w: Word, p: Params)
    requires Fits(t.hw, p) && t.delivered == [w] && |w.bits| == p.width && Flat(t.frames) == []
    ensures !Returned(t, p)
  {
    hide Flat, Spelled, MsbFirst, Pipe;
    OneWordSpells(w);
  }

  lemma LoopbackFails(r: Regs, i: Wires, p: Params) returns (ins: seq<Wires>)
    requires Fits(r, p) && WiresFit(i, p) && !i.resetn && AboutToShow(r)
    ensures AllFit(ins, p) && Released(ins) && Looped(Start(Step(r, i, p)), ins, p)
    ensures !Returned(Run(Start(Step(r, i, p)), ins, p), p)
  {
    var t := Start(Step(r, i, p));
    hide Step, TraceStep, Run, Looped, Returned, Flat, Start, AboutToShow;
    var zeros: Bits := seq(p.width, _ => false);
    var w := Wires(true, false, zeros, false, t.hw.mosi);
    var w' := Wires(true, false, zeros, false, TraceStep(t, w, p).hw.mosi);
    ins := [w, w'];
    ZeroWordAfterReset(r, i, w, w', p);
    RunOfTwo(t, w, w', p);
    NeverSent(Run(t, ins, p), Word(zeros, true), p);
  }

  /** From a reset, every looped run returns its words if and only if the reset found no word about
      to be shown. */
  lemma LoopbackIff(r: Regs, i: Wires, p: Params)
    requires Fits(r, p) && WiresFit(i, p) && !i.resetn
    ensures (forall ins :: AllFit(ins, p) && Released(ins) && Looped(Start(Step(r, i, p)), ins, p) ==>
               Returned(Run(Start(Step(r, i, p)), ins, p), p))
       <==> !AboutToShow(r)
  {
    hide Step, Run, AllFit, Released, Looped, Returned;
    if AboutToShow(r) {
      var ins := LoopbackFails(r, i, p);
      assert !Returned(Run(Start(Step(r, i, p)), ins, p), p);
    } else {
      forall ins | AllFit(ins, p) && Released(ins) && Looped(Start(Step(r, i, p)), ins, p)
        ensures Returned(Run(Start(Step(r, i, p)), ins, p), p)
      {
        LoopbackReturnsWords(r, i, ins, p);
      }
    }
  }

  lemma OneWordSpells(w: Word)
    ensures Spelled([w]) == MsbFirst(w.bits)
  {
    assert [] + [w] == [w];
    SpelledGrows([], w);
  }

  // ----- what a reset leaves

  predicate NothingOffered(ins: seq<Wires>) {
    forall k :: 0 <= k < |ins| ==> !ins[k].tvalid
  }

  lemma {:induction false} NothingAccepted(t: Trace, ins: seq<Wires>, p: Params)
    requires Fits(t.hw, p) && AllFit(ins, p) && NothingOffered(ins)
    ensures Run(t, ins, p).accepted == t.accepted
  {
    hide Step;
    if ins != [] {
      NothingAccepted(t, ins[..|ins| - 1], p);
    }
  }

  /** After a reset with nothing offered, the line stays silent if and only if no word was waiting:
      a waiting one, or what was left of one being sent, is sent from the register. */
  lemma SilentAfterResetIff(r: Regs, i: Wires, ins: seq<Wires>, p: Params)
    requires Fits(r, p) && WiresFit(i, p) && !i.resetn
    requires AllFit(ins, p) && Released(ins) && NothingOffered(ins)
    requires AtRest(Run(Start(Step(r, i, p)), ins, p).hw)
    ensures var t := Run(Start(Step(r, i, p)), ins, p);
      && (Flat(t.frames) == [] <==> r.ready)
      && Flat(t.frames) == if r.ready then [] else MsbFirst(r.tx)
  {
    var t := Start(Step(r, i, p));
    assert t.accepted == if r.ready then [] else [Word(r.tx, r.last)];
    ResetStartsSending(r, i, p);
    OneWordSpells(Word(r.tx, r.last));
    assert Spelled([]) == [];
    hide Step, Wrap, Spelled, MsbFirst, Start, Run, Flat, AcceptedOk, FramesOk, PacketsOk, ControlOk;
    SendsAlong(t, ins, p);
    NothingAccepted(t, ins, p);
    LineSpellsWords(Run(t, ins, p), p);
  }

  // ----- the clock divider

  lemma ClockMoves(r: Regs, i: Wires, p: Params)
    requires Fits(r, p) && WiresFit(i, p) && i.resetn
    ensures Step(r, i, p).clk == Count(r.clk, p.divisor)
  {
    hide Wrap, ShiftIn, Count;
    AlwaysKeeps(r, i, p);
    hide Always;
  }

  lemma {:induction false} ClockAlong(t: Trace, ins: seq<Wires>, p: Params)
    requires Fits(t.hw, p) && AllFit(ins, p) && Released(ins) && |ins| <= Wrap(p.divisor)
    ensures Run(t, ins, p).hw.clk
      == if t.hw.clk + |ins| < Wrap(p.divisor) then t.hw.clk + |ins| else t.hw.clk + |ins| - Wrap(p.divisor)
  {
    hide Wrap, Step, Flat, Extend;
    if ins != [] {
      ClockAlong(t, ins[..|ins| - 1], p);
      ClockMoves(Run(t, ins[..|ins| - 1], p).hw, ins[|ins| - 1], p);
    }
  }

  /** The least power of two that is not below n. */
  lemma {:induction false} LeastPower(n: nat)
    ensures n <= Pow2(Clog2(n)) && (n >= 2 ==> Pow2(Clog2(n)) <= 2 * (n - 1))
  {
    if n > 1 {
      LeastPower((n + 1) / 2);
    }
  }

  /** The divider counts through divisor + 1 values, as the comparison suggests, only for 1. */
  lemma DividesByDivisorIff(divisor: nat)
    ensures Wrap(divisor) == divisor + 1 <==> divisor == 1
    ensures divisor >= 2 ==> 2 * divisor <= Wrap(divisor) <= 4 * (divisor - 1)
    ensures Wrap(4) == 8
  {
    LeastPower(divisor);
  }

  /** The divider is never reset: ticks are as far apart as its register takes to wrap around,
      twice the least power of two not below the divisor. */
  lemma TicksAWrapApart(t: Trace, ins: seq<Wires>, p: Params)
    requires Fits(t.hw, p) && AllFit(ins, p) && Released(ins)
    requires Tick(t.hw, p) && 0 < |ins| <= Wrap(p.divisor)
    ensures Tick(Run(t, ins, p).hw, p) <==> |ins| == Wrap(p.divisor)
  {
    hide Wrap, TraceStep;
    ClockAlong(t, ins, p);
  }

  /** Half clocks since the current word began; 0 between frames. */
  function Phase(r: Regs): nat
    requires r.state == S1 ==> r.counter >= 1
  {
    match r.state
    case S0 => 0
    case S1 => 2 * r.counter - 1
    case S2 => 2 * r.counter
  }

  /** Nothing stalls a word: it moves by half a clock at every tick, and after 2 * WIDTH of them
      the next word or the gap between frames begins. */
  lemma PhaseMoves(r: Regs, i: Wires, p: Params)
    requires Fits(r, p) && WiresFit(i, p) && ControlOk(r, p) && i.resetn
    ensures ControlOk(Step(r, i, p), p)
    ensures var r' := Step(r, i, p);
      Phase(r') == if !Tick(r, p) then Phase(r) else if 0 < Phase(r) < 2 * p.width then Phase(r) + 1
                   else if WordBegins(r, p) then 1 else 0
  {
    hide Wrap, ShiftIn;
    ControlKept(r, i, p);
    FitsItsCounter(p.width);
    AlwaysKeeps(r, i, p);
    hide Always;
  }

  /** With nothing to send, the line goes low at the next tick and stays there. */
  lemma IdleLineIsLow(r: Regs, i: Wires, p: Params)
    requires Fits(r, p) && WiresFit(i, p) && i.resetn && AtRest(r)
    ensures var r' := Step(r, i, p);
      r'.state == S0 && (r'.mosi <==> r.mosi && !Tick(r, p))
  {
    hide Wrap, ShiftIn;
  }

  // ----- the module

  /** `SPI_master_v1_0`. */
  class SpiMasterV1 {
    const p: Params
    var mosi: bool
    var tx: Bits
    var rx: Bits
    var ready: bool
    var last: bool
    var lastBuff: bool
    var rxFull0: bool
    var rxFull1: bool
    var counter: nat
    var clk: nat
    var state: State
    var tvalid: bool
    var tdata: Bits

    /** The initial values of the register declarations; `tvalid` has none. */
    constructor (p: Params, dataWidth: nat)
      requires p.width <= dataWidth
      ensures this.p == p && Fits(Registers(), p) && AtRest(Registers()) && !rxFull0
    {
      this.p := p;
      tx, rx, tdata := seq(p.width, _ => false), seq(p.width, _ => false), seq(dataWidth, _ => false);
      ready, counter, clk, state, rxFull0 := true, 0, 0, S0, false;
    }

    function Registers(): Regs
      reads this
    {
      Regs(mosi, tx, rx, ready, last, lastBuff, rxFull0, rxFull1, counter, clk, state, tvalid, tdata)
    }

    /** The part of the clocked block outside the tick. */
    method AlwaysEdge(i: Wires)
      requires Fits(Registers(), p) && WiresFit(i, p)
      modifies this
      ensures Registers() == Always(old(Registers()), i, p)
    {
      hide Wrap;
      if i.resetn && i.tvalid && ready {
        tx := i.data[..p.width];
        last := i.last;
        ready := false;
      }
      tvalid := rxFull0 && !rxFull1;
      rxFull0, rxFull1 := false, rxFull0;
      clk := Count(clk, p.divisor);
    }

    /** A tick between words; r are the registers as they were before the edge. */
    method BetweenWords(r: Regs, i: Wires)
      requires Fits(r, p) && Fits(Registers(), p) && r.state == S0
      modifies this
      ensures Registers() == AtTick(r, old(Registers()), i, p)
    {
      hide Wrap;
      mosi := false;
      rxFull0 := false;
      if !r.ready {
        mosi := r.tx[p.width - 1];
        lastBuff := r.last;
        counter := 1;
        state := S1;
      }
    }

    /** A tick that raises `sclk`. */
    method LeadingEdge(r: Regs, i: Wires)
      requires Fits(r, p) && Fits(Registers(), p) && r.state == S1
      modifies this
      ensures Registers() == AtTick(r, old(Registers()), i, p)
    {
      hide Wrap;
      if r.counter != p.width {
        tx := ShiftIn(r.tx, false);
      } else {
        ready := true;
      }
      rx := ShiftIn(r.rx, i.miso);
      rxFull0 := false;
      state := S2;
    }

    /** A tick that lowers `sclk`. */
    method TrailingEdge(r: Regs, i: Wires)
      requires Fits(r, p) && Fits(Registers(), p) && r.state == S2
      modifies this
      ensures Registers() == AtTick(r, old(Registers()), i, p)
    {
      hide Wrap;
      mosi := r.tx[p.width - 1];
      if r.counter == p.width {
        tdata := r.rx + r.tdata[p.width..];
        rxFull0 := true;
        if !r.ready && !r.lastBuff {
          lastBuff := r.last;
          counter := 1;
          state := S1;
        } else {
          state := S0;
        }
      } else {
        counter := Count(r.counter, p.width);
        state := S1;
      }
    }

    method Edge(i: Wires)
      requires Fits(Registers(), p) && WiresFit(i, p)
      modifies this
      ensures Registers() == Step(old(Registers()), i, p)
    {
      hide Wrap, Always, AtTick;
      if !i.resetn {
        tvalid := false;
        tdata := seq(|tdata|, _ => false);
        state := S0;
      } else {
        var r := Registers();
        AlwaysEdge(i);
        if r.clk == p.divisor {
          match r.state {
            case S0 => BetweenWords(r, i);
            case S1 => LeadingEdge(r, i);
            case S2 => TrailingEdge(r, i);
          }
        }
      }
    }
  }
}
