/**
 * The Shodan adapter (`ShodanAdapter.lookup_host`): known vulnerabilities and
 * Apache banners of a host add up to a score, and the score to a severity.
 */
module Shodan {
  import opened Wrappers
  import opened Strings
  import opened Levels
  import opened Resources

  /** A service banner; `productText` stands for `str(banner.get('product', ''))`. */
  datatype Banner = Banner(productText: string)

  /**
   * `ShodanFailed` when the request or decoding raises; otherwise the status,
   * the `vulns` list (empty when absent) and the `data` banners (empty when absent).
   */
  datatype ShodanResponse = ShodanFailed | ShodanReply(status: int, vulns: seq<string>, banners: seq<Banner>)

  const Feed: string := "shodan"

  predicate IsApache(b: Banner) {
    Contains(Lower(b.productText), "apache")
  }

  /** The number of banners whose lower-cased product mentions apache. */
  function ApacheCount(banners: seq<Banner>): (n: nat)
    ensures n <= |banners|
    ensures n == 0 <==> forall i :: 0 <= i < |banners| ==> !IsApache(banners[i])
  {
    if banners == [] then 0
    else
      assert forall i :: 0 < i < |banners| ==> banners[i] == banners[1..][i - 1];
      (if IsApache(banners[0]) then 1 else 0) + ApacheCount(banners[1..])
  }

  /** `vuln_score`: one point per vulnerability and one per Apache banner, so at least the vulnerability count. */
  function VulnScore(vulns: seq<string>, banners: seq<Banner>): (s: nat)
    ensures |vulns| <= s <= |vulns| + |banners|
    ensures s == |vulns| <==> forall i :: 0 <= i < |banners| ==> !IsApache(banners[i])
  {
    |vulns| + ApacheCount(banners)
  }

  /** The bands: 0 is LOW, 1 to 4 MEDIUM, 5 and more HIGH. */
  function ShodanSeverity(score: nat): (s: Severity)
    ensures s == LOW <==> score == 0
    ensures s == MEDIUM <==> 1 <= score <= 4
    ensures s == HIGH <==> score >= 5
  {
    if score > 0 then (if score < 5 then MEDIUM else HIGH) else LOW
  }

  function Placeholder(host: string): Finding {
    RawFinding(Feed, HostSubject(host), "LOW", NoKeyEvidence)
  }

  function ScoreFinding(host: string, score: nat): Finding {
    RawFinding(Feed, HostSubject(host), Name(ShodanSeverity(score)), "vuln_count=" + NatToString(score))
  }

  /** The findings `lookup_host(host)` returns. */
  function Lookup(hasKey: bool, host: string, resp: ShodanResponse): (r: seq<Finding>)
    ensures host == "" ==> r == []
    ensures host != "" && !hasKey ==> r == [Placeholder(host)]
    ensures host != "" && hasKey ==> (|r| == 1 <==> resp.ShodanReply? && resp.status == 200)
    ensures host != "" && hasKey && resp.ShodanReply? && resp.status == 200 ==>
      r == [ScoreFinding(host, VulnScore(resp.vulns, resp.banners))]
    ensures |r| <= 1
    ensures forall f :: f in r ==> f.feed == Some(Feed) && f.risk != Some("CRITICAL")
  {
    if host == "" then []
    else if !hasKey then [Placeholder(host)]
    else match resp
      case ShodanFailed => []
      case ShodanReply(status, vulns, banners) =>
        if status == 200 then [ScoreFinding(host, VulnScore(vulns, banners))] else []
  }

  /** `lookup_host`: the score accumulates over the banner loop. */
  method LookupHost(hasKey: bool, host: string, resp: ShodanResponse) returns (findings: seq<Finding>)
    ensures findings == Lookup(hasKey, host, resp)
  {
    findings := [];
    if host == "" {
      return;
    }
    if !hasKey {
      findings := findings + [Placeholder(host)];
      return;
    }
    if resp.ShodanFailed? || resp.status != 200 {
      return;
    }
    var vulnScore: nat := 0;
    if resp.vulns != [] {
      vulnScore := vulnScore + |resp.vulns|;
    }
    vulnScore := AddApacheBanners(vulnScore, resp.banners);
    var risk := "LOW";
    if vulnScore > 0 {
      risk := if vulnScore < 5 then "MEDIUM" else "HIGH";
    }
    assert risk == Name(ShodanSeverity(vulnScore));
    findings := findings + [RawFinding(Feed, HostSubject(host), risk, "vuln_count=" + NatToString(vulnScore))];
  }

  /** The banner loop of `lookup_host`: one point per Apache banner. */
  method AddApacheBanners(score: nat, banners: seq<Banner>) returns (vulnScore: nat)
    ensures vulnScore == score + ApacheCount(banners)
  {
    vulnScore := score;
    var rest := banners;
    while rest != []
      invariant vulnScore + ApacheCount(rest) == score + ApacheCount(banners)
      decreases |rest|
    {
      if Contains(Lower(rest[0].productText), "apache") {
        vulnScore := vulnScore + 1;
      }
      rest := rest[1..];
    }
  }
}
