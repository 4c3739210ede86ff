/**
 * `escalate_risk(level, factor)` of the standalone risk-scoring helper: the
 * level's rank plus the factor, rounded and capped at CRITICAL. The factor is a
 * decimal with one place, given in tenths.
 */
module Escalation {
  import opened Wrappers
  import opened Strings
  import opened Levels
  import opened Rounding

  /** The rank of a level name after upper-casing; an unknown name counts as LOW. */
  function CurrentRank(level: string): (r: nat)
    ensures 1 <= r <= 4
    ensures forall s :: Upper(level) == Name(s) ==> r == Rank(s)
    ensures Parse(Upper(level)).None? ==> r == 1
  {
    RankOr(Upper(level), 1)
  }

  /**
   * `RISK_LEVEL_BY_WEIGHT[min(round(current + factor), 4)]`. A rounded weight
   * below 1 has no entry in the table: a `KeyError`.
   */
  function EscalateRisk(level: string, factorTenths: int): (r: Result<Severity>)
    ensures r.Raise? <==> 10 * CurrentRank(level) + factorTenths <= 5
    ensures r.Raise? ==> r.error == KeyError
    ensures r.Ok? && Rank(r.value) < 4 ==>
      -5 <= 10 * Rank(r.value) - (10 * CurrentRank(level) + factorTenths) <= 5
    ensures r.Ok? && Rank(r.value) < 4 ==>
      (10 * Rank(r.value) - (10 * CurrentRank(level) + factorTenths) == 5 ||
       10 * Rank(r.value) - (10 * CurrentRank(level) + factorTenths) == -5) ==> Rank(r.value) % 2 == 0
    ensures r.Ok? && Rank(r.value) == 4 ==> 10 * CurrentRank(level) + factorTenths >= 35
  {
    var weight := RoundHalfEven(10 * CurrentRank(level) + factorTenths);
    var capped := if weight < 4 then weight else 4;
    match OfRank(capped)
    case Some(s) => Ok(s)
    case None => Raise(KeyError)
  }

  /** Rounding never reverses the order of two values. */
  lemma {:induction false} RoundMonotone(a: int, b: int)
    requires a <= b
    ensures RoundHalfEven(a) <= RoundHalfEven(b)
  {
    var ra, rb := RoundHalfEven(a), RoundHalfEven(b);
    assert 10 * (ra - rb) <= 10 + (a - b);
  }

  /** Rounding an exact integer gives it back. */
  lemma {:induction false} RoundExact(n: int)
    ensures RoundHalfEven(10 * n) == n
  {
    RoundHalfEvenUnique(10 * n, n);
  }

  /** The documented case factor=1.0: one level up, capped at CRITICAL. */
  lemma {:induction false} FactorOneStepsUp(level: string)
    ensures EscalateRisk(level, 10).Ok?
    ensures Rank(EscalateRisk(level, 10).value) == if CurrentRank(level) < 4 then CurrentRank(level) + 1 else 4
  {
    RoundExact(CurrentRank(level) + 1);
  }

  /** The documented case factor=2.0: two levels up, capped at CRITICAL. */
  lemma {:induction false} FactorTwoStepsUp(level: string)
    ensures EscalateRisk(level, 20).Ok?
    ensures Rank(EscalateRisk(level, 20).value) == if CurrentRank(level) < 3 then CurrentRank(level) + 2 else 4
  {
    RoundExact(CurrentRank(level) + 2);
  }

  /**
   * The documented case factor=1.5 rounds half to even: LOW and HIGH land on
   * an even weight below the half, MEDIUM jumps to CRITICAL.
   */
  lemma {:induction false} FactorOneAndAHalf()
    ensures EscalateRisk("LOW", 15) == Ok(MEDIUM)
    ensures EscalateRisk("MEDIUM", 15) == Ok(CRITICAL)
    ensures EscalateRisk("HIGH", 15) == Ok(CRITICAL)
    ensures EscalateRisk("CRITICAL", 15) == Ok(CRITICAL)
  {
    CurrentRankOfName(LOW);
    CurrentRankOfName(MEDIUM);
    CurrentRankOfName(HIGH);
    CurrentRankOfName(CRITICAL);
    RoundHalfEvenUnique(25, 2);
    RoundHalfEvenUnique(35, 4);
    RoundHalfEvenUnique(45, 4);
    RoundHalfEvenUnique(55, 6);
  }

  /** A severity's own name has that severity's rank. */
  lemma {:induction false} CurrentRankOfName(s: Severity)
    ensures CurrentRank(Name(s)) == Rank(s)
  {
    ParseName(s);
  }

  /** A non-negative factor never raises and never lowers the level. */
  lemma {:induction false} NonNegativeFactorNeverLowers(level: string, factorTenths: int)
    requires factorTenths >= 0
    ensures EscalateRisk(level, factorTenths).Ok?
    ensures Rank(EscalateRisk(level, factorTenths).value) >= CurrentRank(level)
  {
    RoundExact(CurrentRank(level));
    RoundMonotone(10 * CurrentRank(level), 10 * CurrentRank(level) + factorTenths);
  }

  /** A larger factor never gives a lower level. */
  lemma {:induction false} EscalationMonotone(level: string, f1: int, f2: int)
    requires f1 <= f2
    requires EscalateRisk(level, f1).Ok?
    ensures EscalateRisk(level, f2).Ok?
    ensures Rank(EscalateRisk(level, f1).value) <= Rank(EscalateRisk(level, f2).value)
  {
    RoundMonotone(10 * CurrentRank(level) + f1, 10 * CurrentRank(level) + f2);
  }
}
