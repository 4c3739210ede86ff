/**
 * `build_explanation`: the per-resource result record the worker stores, made
 * of the resource's id and type, the aggregate severity, a count text and the
 * correlated findings.
 */
module Explanation {
  import opened Wrappers
  import opened Strings
  import opened Levels
  import opened Resources

  datatype ScanResult = ScanResult(
    resourceId: string,
    resourceType: Option<string>,
    riskScore: Severity,
    details: string,
    findings: seq<Finding>)

  const DetailsSuffix: string := " correlated finding(s)"

  /** The record for one resource: nothing is recomputed, the findings are kept as given. */
  function BuildExplanation(res: Resource, correlated: seq<Finding>, score: Severity): (r: ScanResult)
    ensures r.resourceId == res.resourceId && r.resourceType == res.rtype
    ensures r.riskScore == score && r.findings == correlated
  {
    ScanResult(res.resourceId, res.rtype, score, NatToString(|correlated|) + DetailsSuffix, correlated)
  }

  /** Reads the count back out of a `details` text, if it has the builder's shape. */
  function CountOfDetails(details: string): Option<nat> {
    if |details| > |DetailsSuffix| && details[|details| - |DetailsSuffix|..] == DetailsSuffix &&
       AllDigits(details[..|details| - |DetailsSuffix|])
    then Some(DigitsValue(details[..|details| - |DetailsSuffix|]))
    else None
  }

  /** The `details` text states the number of correlated findings, and it can be read back. */
  lemma {:induction false} DetailsRoundTrip(res: Resource, correlated: seq<Finding>, score: Severity)
    ensures CountOfDetails(BuildExplanation(res, correlated, score).details) == Some(|correlated|)
  {
    var digits := NatToString(|correlated|);
    var details := digits + DetailsSuffix;
    assert details[..|details| - |DetailsSuffix|] == digits;
    assert details[|details| - |DetailsSuffix|..] == DetailsSuffix;
    DigitsValueOfNatToString(|correlated|);
  }

  /** Two records for batches of different sizes never carry the same `details`. */
  lemma {:induction false} DetailsDistinguishCounts(res: Resource, a: seq<Finding>, b: seq<Finding>, s: Severity, t: Severity)
    ensures BuildExplanation(res, a, s).details == BuildExplanation(res, b, t).details <==> |a| == |b|
  {
    if BuildExplanation(res, a, s).details == BuildExplanation(res, b, t).details {
      DetailsRoundTrip(res, a, s);
      DetailsRoundTrip(res, b, t);
    }
  }
}
