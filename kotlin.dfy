/** Integer operators of the source language that differ from Dafny's. */
module Kotlin {

  /** Kotlin `Int` division: the quotient is truncated toward zero. */
  function TruncDiv(a: int, b: int): (q: int)
    requires b != 0
    ensures a >= 0 && b > 0 ==> q == a / b
    ensures (a >= 0) == (b > 0) || a == 0 ==> q >= 0
  {
    if (a >= 0) == (b > 0) then
      (if a >= 0 then a else -a) / (if b > 0 then b else -b)
    else
      -((if a >= 0 then a else -a) / (if b > 0 then b else -b))
  }

  /** For a non-negative dividend and a positive divisor, the quotient is the floor of `a / b`. */
  lemma TruncDivBounds(a: int, b: int)
    requires a >= 0 && b > 0
    ensures TruncDiv(a, b) * b <= a < TruncDiv(a, b) * b + b
  {
  }
}
