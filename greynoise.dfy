/**
 * The GreyNoise adapter (`GreyNoiseAdapter.lookup_ip`): an address that the
 * noise classifier flags as scanning the internet is a MEDIUM finding.
 */
module GreyNoise {
  import opened Wrappers
  import opened Levels
  import opened Resources

  /** `GreyFailed` when the request or decoding raises; otherwise the status and the `noise` value. */
  datatype GreyResponse = GreyFailed | GreyReply(status: int, noise: Option<Scalar>)

  const Feed: string := "greynoise"

  function Placeholder(ip: string): Finding {
    RawFinding(Feed, IpSubject(ip), "LOW", NoKeyEvidence)
  }

  function NoiseFinding(ip: string): Finding {
    RawFinding(Feed, IpSubject(ip), Name(MEDIUM), "noise=true")
  }

  /** The findings `lookup_ip(ip)` returns. */
  function Lookup(hasKey: bool, ip: string, resp: GreyResponse): (r: seq<Finding>)
    ensures ip == "" ==> r == []
    ensures ip != "" && !hasKey ==> r == [Placeholder(ip)]
    ensures ip != "" && hasKey ==>
      (r != [] <==> resp.GreyReply? && resp.status == 200 && IsTrue(resp.noise))
    ensures ip != "" && hasKey && r != [] ==> r == [NoiseFinding(ip)]
    ensures |r| <= 1
    ensures forall f :: f in r ==> f.feed == Some(Feed) && (f.risk == Some("LOW") || f.risk == Some("MEDIUM"))
  {
    if ip == "" then []
    else if !hasKey then [Placeholder(ip)]
    else match resp
      case GreyFailed => []
      case GreyReply(status, noise) => if status == 200 && IsTrue(noise) then [NoiseFinding(ip)] else []
  }

  /** `lookup_ip` */
  method LookupIp(hasKey: bool, ip: string, resp: GreyResponse) returns (findings: seq<Finding>)
    ensures findings == Lookup(hasKey, ip, resp)
    ensures |findings| <= 1
  {
    findings := [];
    if ip == "" {
      return;
    }
    if !hasKey {
      findings := findings + [Placeholder(ip)];
      return;
    }
    if resp.GreyReply? && resp.status == 200 {
      if resp.noise == Some(Bool(true)) {
        findings := findings + [RawFinding(Feed, IpSubject(ip), "MEDIUM", "noise=true")];
      }
    }
  }
}
