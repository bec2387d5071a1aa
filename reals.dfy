/** Real division, reached through one recursive step. A recursive function is
    unfolded once per use, so the quotient itself stays out of sight until a
    proof asks for it with `DivValue`; proofs that only pass a quotient along
    are then free of non-linear arithmetic. */
module Reals {
  /** `x / y` after `steps` trivial steps. */
  function DivSteps(x: real, y: real, steps: nat): real
    requires y != 0.0
    decreases steps
  {
    if steps == 0 then x / y else DivSteps(x, y, steps - 1)
  }

  /** `x / y`. */
  function Div(x: real, y: real): real
    requires y != 0.0
  {
    DivSteps(x, y, 1)
  }

  lemma DivValue(x: real, y: real)
    requires y != 0.0
    ensures Div(x, y) == x / y
    ensures Div(x, y) * y == x
  {
    assert DivSteps(x, y, 1) == DivSteps(x, y, 0);
  }
}
