/**
 * The AbuseIPDB adapter (`AbuseIPDBAdapter.lookup_ip`): an abuse-confidence
 * score becomes a severity. The HTTP call is abstract: the caller passes the
 * reply the feed gives for this address.
 */
module AbuseIpDb {
  import opened Wrappers
  import opened Strings
  import opened Levels
  import opened Resources

  /**
   * What the request yields: `AbuseFailed` for every reply that raises inside
   * the `try` (the request or the JSON decoding fails, the reply is not an
   * object, `data` is null, or the score is null or not a number, so that `.get`
   * or the comparison with 75 raises); otherwise the status code and
   * `data.abuseConfidenceScore` if present.
   */
  datatype AbuseResponse = AbuseFailed | AbuseReply(status: int, score: Option<int>)

  const Feed: string := "abuseipdb"

  /** The score thresholds: 75 and above is HIGH, 30 to 74 MEDIUM, below 30 LOW. */
  function AbuseSeverity(score: int): (s: Severity)
    ensures s == HIGH <==> score >= 75
    ensures s == MEDIUM <==> 30 <= score < 75
    ensures s == LOW <==> score < 30
  {
    if score >= 75 then HIGH else if score >= 30 then MEDIUM else LOW
  }

  function Placeholder(ip: string): Finding {
    RawFinding(Feed, IpSubject(ip), "LOW", NoKeyEvidence)
  }

  function ScoreFinding(ip: string, score: int): Finding {
    RawFinding(Feed, IpSubject(ip), Name(AbuseSeverity(score)), "abuse_score=" + IntToString(score))
  }

  /** The findings `lookup_ip(ip)` returns. */
  function Lookup(hasKey: bool, ip: string, resp: AbuseResponse): (r: seq<Finding>)
    ensures ip == "" ==> r == []
    ensures ip != "" && !hasKey ==> r == [Placeholder(ip)]
    ensures ip != "" && hasKey ==> (|r| == 1 <==> resp.AbuseReply? && resp.status == 200)
    ensures ip != "" && hasKey && resp.AbuseReply? && resp.status == 200 ==>
      r[0].risk == Some(Name(AbuseSeverity(resp.score.GetOr(0)))) && r[0].subject == IpSubject(ip)
    ensures |r| <= 1
    ensures forall f :: f in r ==> f.feed == Some(Feed) && f.risk != Some("CRITICAL")
  {
    if ip == "" then []
    else if !hasKey then [Placeholder(ip)]
    else match resp
      case AbuseFailed => []
      case AbuseReply(status, score) => if status == 200 then [ScoreFinding(ip, score.GetOr(0))] else []
  }

  /** `lookup_ip`: early returns, the risk reassigned through the threshold chain. */
  method LookupIp(hasKey: bool, ip: string, resp: AbuseResponse) returns (findings: seq<Finding>)
    ensures findings == Lookup(hasKey, ip, resp)
    ensures |findings| <= 1
  {
    findings := [];
    if ip == "" {
      return;
    }
    if !hasKey {
      findings := findings + [Placeholder(ip)];
      return;
    }
    if resp.AbuseFailed? {
      // the exception is absorbed and nothing was appended
      return;
    }
    if resp.status == 200 {
      var abuseScore := resp.score.GetOr(0);
      var risk := "LOW";
      if abuseScore >= 75 {
        risk := "HIGH";
      } else if abuseScore >= 30 {
        risk := "MEDIUM";
      }
      findings := findings + [RawFinding(Feed, IpSubject(ip), risk, "abuse_score=" + IntToString(abuseScore))];
    }
  }
}
