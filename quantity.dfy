/** The quantity stepper rule shared by the cart lines and the product page:
    `Math.max(1, quantity + change)`. */
module Quantity {

  /** The new quantity after a signed `change`: the sum, but never below 1. */
  function Step(q: int, change: int): (r: int)
    ensures r >= 1 && r >= q + change
    ensures r == 1 || r == q + change
  {
    if q + change > 1 then q + change else 1
  }

  /** The minus button at quantity 1 leaves the quantity at 1. */
  lemma MinusAtOneStays()
    ensures Step(1, -1) == 1
  {
  }

  /** The plus button on a valid quantity adds exactly one. */
  lemma PlusAddsOne(q: int)
    requires q >= 1
    ensures Step(q, 1) == q + 1
  {
  }
}
