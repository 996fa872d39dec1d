/** The random generator of the game.
    The source draws every random decision from one global generator that it
    never shows. Here that generator is an explicit, injectable tape of raw
    draws: the k-th call reads `tape(k)`. Any run of the source corresponds to
    some tape, and a fixed tape makes a run fully deterministic. */
module Dice {

  /** An infinite sequence of raw draws. */
  type Tape = nat -> nat

  /** `below(n)`: the draw at position k, reduced into [0, n). */
  function Draw(tape: Tape, k: nat, n: nat): (r: nat)
    requires 0 < n
    ensures r < n
  {
    tape(k) % n
  }

  /** `odds(chance, outOf)`: one draw, true for `chance` of the `outOf` outcomes. */
  predicate Chance(tape: Tape, k: nat, chance: nat, outOf: nat)
    requires 0 < outOf
  {
    Draw(tape, k, outOf) < chance
  }

  /** `choice(xs)`: the element at a drawn index. */
  function Pick<T>(tape: Tape, k: nat, xs: seq<T>): (r: T)
    requires 0 < |xs|
    ensures r in xs
  {
    xs[Draw(tape, k, |xs|)]
  }

  /** The global generator: a tape and how much of it has been consumed. */
  class Random {
    const tape: Tape
    var drawn: nat

    constructor (tape: Tape)
      ensures this.tape == tape && drawn == 0
    {
      this.tape := tape;
      drawn := 0;
    }

    /** `below(n)` and `below_low(n)`. */
    method Below(n: nat) returns (r: nat)
      requires 0 < n
      modifies this
      ensures r == Draw(tape, old(drawn), n) && r < n
      ensures drawn == old(drawn) + 1
    {
      r := Draw(tape, drawn, n);
      drawn := drawn + 1;
    }

    /** `odds(chance, outOf)`. */
    method Odds(chance: nat, outOf: nat) returns (b: bool)
      requires 0 < outOf
      modifies this
      ensures b == Chance(tape, old(drawn), chance, outOf)
      ensures drawn == old(drawn) + 1
    {
      b := Chance(tape, drawn, chance, outOf);
      drawn := drawn + 1;
    }

    /** `choice(xs)` and `choice_low(xs)`. */
    method Choice<T>(xs: seq<T>) returns (r: T)
      requires 0 < |xs|
      modifies this
      ensures r == Pick(tape, old(drawn), xs)
      ensures drawn == old(drawn) + 1
    {
      r := Pick(tape, drawn, xs);
      drawn := drawn + 1;
    }

    /** Moves the cursor past draws made by a pure helper. */
    method Advance(to: nat)
      requires drawn <= to
      modifies this
      ensures drawn == to
    {
      drawn := to;
    }
  }
}
