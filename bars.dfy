/** The progress bar that measures experience, tasks, quests, the plot and
    encumbrance. Positions are the source's floats, modelled as reals; the
    maximum is always an integer there. */
module Bars {

  /** `float(min(new_pos, max_))`: the upper clamp, with no lower one. */
  function Clamp(pos: real, max: int): (r: real)
    ensures r <= max as real
    ensures r == pos || r == max as real
    ensures pos <= max as real ==> r == pos
  {
    if pos <= max as real then pos else max as real
  }

  class Bar {
    var position: real
    var max: int

    /** `Bar(max_)`: an empty bar. */
    constructor (max: int)
      ensures this.max == max && position == 0.0
    {
      this.max := max;
      position := 0.0;
    }

    /** The bar is full. */
    predicate Done()
      reads this
    {
      position >= max as real
    }

    /** `reset(new_max, position)`: both fields replaced as given, without clamping. */
    method Reset(newMax: int, newPosition: real)
      modifies this
      ensures max == newMax && position == newPosition
    {
      max := newMax;
      position := newPosition;
    }

    /** `reposition(new_pos)`: clamped to the maximum, never to a floor. */
    method Reposition(newPos: real)
      modifies this
      ensures max == old(max)
      ensures position == Clamp(newPos, max)
      ensures position <= max as real
      ensures Done() <==> newPos >= max as real
    {
      position := Clamp(newPos, max);
    }

    /** `increment(inc)`: a negative `inc` moves the bar back, below zero if need be. */
    method Increment(inc: real)
      modifies this
      ensures max == old(max)
      ensures position == Clamp(old(position) + inc, max)
      ensures position <= max as real
      ensures Done() <==> old(position) + inc >= max as real
    {
      Reposition(position + inc);
    }
  }
}
