/** Runs of a machine that makes one step per clock edge. */
module Runs {
  /** The state after these inputs, the last of them last. */
  function Run<S, I>(step: (S, I) -> S, s: S, ins: seq<I>): S {
    if ins == [] then s else step(Run(step, s, ins[..|ins| - 1]), ins[|ins| - 1])
  }

  lemma RunGrows<S, I>(step: (S, I) -> S, s: S, ins: seq<I>, n: nat)
    requires n < |ins|
    ensures Run(step, s, ins[..n + 1]) == step(Run(step, s, ins[..n]), ins[n])
  {
    assert ins[..n + 1][..n] == ins[..n];
  }

  /** Running on from where a first stretch ended. */
  lemma {:induction false} RunOn<S, I>(step: (S, I) -> S, s: S, ins: seq<I>, more: seq<I>)
    ensures Run(step, s, ins + more) == Run(step, Run(step, s, ins), more)
  {
    if more == [] {
      assert ins + more == ins;
    } else {
      var n := |more| - 1;
      assert (ins + more)[..|ins + more| - 1] == ins + more[..n];
      RunOn(step, s, ins, more[..n]);
    }
  }

  lemma RunOfTwo<S, I>(step: (S, I) -> S, s: S, x: I, y: I)
    ensures Run(step, s, [x, y]) == step(step(s, x), y)
  {
    RunGrows(step, s, [x, y], 0);
    RunGrows(step, s, [x, y], 1);
    assert [x, y][..0] == [] && [x, y][..1] == [x] && [x, y][..2] == [x, y];
  }

  lemma RunOfThree<S, I>(step: (S, I) -> S, s: S, x: I, y: I, z: I)
    ensures Run(step, s, [x, y, z]) == step(step(step(s, x), y), z)
  {
    RunOfTwo(step, s, x, y);
    RunGrows(step, s, [x, y, z], 2);
    assert [x, y, z][..2] == [x, y] && [x, y, z][..3] == [x, y, z];
  }
}
