/** The four-level severity scale shared by every component, and its names. */
module Levels {
  import opened Wrappers
  import opened Strings

  datatype Severity = LOW | MEDIUM | HIGH | CRITICAL

  /** The `RISK_ORDER` table: LOW 1 .. CRITICAL 4. */
  function Rank(s: Severity): (r: nat)
    ensures 1 <= r <= 4
  {
    match s
    case LOW => 1
    case MEDIUM => 2
    case HIGH => 3
    case CRITICAL => 4
  }

  /** The `RISK_LEVEL_BY_WEIGHT` table; a weight outside 1..4 is a KeyError, here `None`. */
  function OfRank(n: int): (r: Option<Severity>)
    ensures r.Some? <==> 1 <= n <= 4
    ensures r.Some? ==> Rank(r.value) == n
  {
    if n == 1 then Some(LOW)
    else if n == 2 then Some(MEDIUM)
    else if n == 3 then Some(HIGH)
    else if n == 4 then Some(CRITICAL)
    else None
  }

  lemma {:induction false} RankInjective(a: Severity, b: Severity)
    requires Rank(a) == Rank(b)
    ensures a == b
  {
  }

  /** The upper-case string a severity serializes as. */
  function Name(s: Severity): string {
    match s
    case LOW => "LOW"
    case MEDIUM => "MEDIUM"
    case HIGH => "HIGH"
    case CRITICAL => "CRITICAL"
  }

  /** Exact lookup of a name among the four severities (the tables' key test). */
  function Parse(name: string): (r: Option<Severity>)
    ensures r.Some? ==> Name(r.value) == name
  {
    if name == "LOW" then Some(LOW)
    else if name == "MEDIUM" then Some(MEDIUM)
    else if name == "HIGH" then Some(HIGH)
    else if name == "CRITICAL" then Some(CRITICAL)
    else None
  }

  lemma {:induction false} ParseName(s: Severity)
    ensures Parse(Name(s)) == Some(s)
    ensures Upper(Name(s)) == Name(s)
  {
    UpperOfUpper(Name(s));
  }

  /** `RISK_ORDER.get(name, default)` */
  function RankOr(name: string, default: nat): nat {
    match Parse(name)
    case Some(s) => Rank(s)
    case None => default
  }

  /** The `SEVERITY_WEIGHTS` table of the scorers: LOW 1, MEDIUM 3, HIGH 6, CRITICAL 10. */
  function Weight(s: Severity): (w: nat)
    ensures 1 <= w <= 10
  {
    match s
    case LOW => 1
    case MEDIUM => 3
    case HIGH => 6
    case CRITICAL => 10
  }

  /** A higher severity always weighs more. */
  lemma {:induction false} WeightFollowsRank(a: Severity, b: Severity)
    ensures Rank(a) < Rank(b) <==> Weight(a) < Weight(b)
  {
  }

  function Max(a: Severity, b: Severity): (r: Severity)
    ensures Rank(r) >= Rank(a) && Rank(r) >= Rank(b)
    ensures r == a || r == b
  {
    if Rank(a) >= Rank(b) then a else b
  }
}
