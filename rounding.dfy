/**
 * Python's built-in `round` on a decimal given in tenths.  The correlation and
 * scoring code only ever rounds values with one decimal place (the exposure
 * offsets 0.3, 0.4 and 0.7 and their sums), so a value v is represented by the
 * integer 10 * v.
 */
module Rounding {

  /** round(t / 10): to the nearest integer, and to the even one on a tie. */
  function RoundHalfEven(tenths: int): (r: int)
    ensures -5 <= 10 * r - tenths <= 5
    ensures (10 * r - tenths == 5 || 10 * r - tenths == -5) ==> r % 2 == 0
  {
    var q, rem := tenths / 10, tenths % 10;
    if rem < 5 then q
    else if rem > 5 then q + 1
    else if q % 2 == 0 then q
    else q + 1
  }

  /** The two conditions above determine the rounded value: RoundHalfEven is Python's round. */
  lemma {:induction false} RoundHalfEvenUnique(tenths: int, r: int)
    requires -5 <= 10 * r - tenths <= 5
    requires (10 * r - tenths == 5 || 10 * r - tenths == -5) ==> r % 2 == 0
    ensures r == RoundHalfEven(tenths)
  {
    var e := RoundHalfEven(tenths);
    assert -10 <= 10 * (r - e) <= 10;
  }
}
