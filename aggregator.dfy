/**
 * `ThreatAggregator.check_resource`: derives the candidate indicators of a
 * resource, fans every candidate out to AbuseIPDB, GreyNoise and Shodan, and
 * finally asks OTX about the resource as a whole.
 *
 * The adapters' API keys are read once, when the aggregator is built; here
 * they are the `Keys` record. Every remote reply is an oracle in `Feeds`.
 */
module Aggregator {
  import opened Wrappers
  import opened Resources
  import AbuseIpDb
  import GreyNoise
  import Shodan
  import Otx
  import Multisets

  /** Which of the four adapters was given a truthy API key. */
  datatype Keys = Keys(otx: bool, shodan: bool, abuse: bool, greynoise: bool)

  /** What each service answers for an indicator. */
  datatype Feeds = Feeds(
    otx: string -> Otx.OtxResponse,
    shodan: string -> Shodan.ShodanResponse,
    abuse: string -> AbuseIpDb.AbuseResponse,
    greynoise: string -> GreyNoise.GreyResponse)

  /**
   * The `ips` list before deduplication: `public_ip` when
   * `associate_public_ip_address is True` and `public_ip` is truthy, then
   * `cidr_block` and `endpoint` whenever their keys are present (absent and
   * null are both `None`, and both are dropped later).
   */
  function RawCandidates(attrs: Attributes): (ips: seq<Option<string>>)
    ensures |ips| <= 3
    ensures IsTrue(attrs.associatePublicIp) && Truthy(attrs.publicIp) ==> attrs.publicIp in ips
    ensures attrs.cidrBlock in ips && attrs.endpoint in ips
    ensures forall o :: o in ips ==>
      (o == attrs.cidrBlock || o == attrs.endpoint || (o == attrs.publicIp && IsTrue(attrs.associatePublicIp)))
  {
    (if IsTrue(attrs.associatePublicIp) && Truthy(attrs.publicIp) then [attrs.publicIp] else []) +
    [attrs.cidrBlock, attrs.endpoint]
  }

  /** `[i for i in set(ips) if i]`, as a set: the truthy candidates, each once. */
  function CandidateSet(attrs: Attributes): (s: set<string>)
    ensures forall x :: x in s <==>
      (x != "" && ((IsTrue(attrs.associatePublicIp) && attrs.publicIp == Some(x)) ||
                   attrs.cidrBlock == Some(x) || attrs.endpoint == Some(x)))
  {
    var ips := RawCandidates(attrs);
    set o | o in ips && Truthy(o) :: o.value
  }

  /** What one candidate adds: abuse, then greynoise, then shodan. */
  function PerCandidate(keys: Keys, feeds: Feeds, ip: string): seq<Finding> {
    AbuseIpDb.Lookup(keys.abuse, ip, feeds.abuse(ip)) +
    GreyNoise.Lookup(keys.greynoise, ip, feeds.greynoise(ip)) +
    Shodan.Lookup(keys.shodan, ip, feeds.shodan(ip))
  }

  /** The findings of the candidate loop when it visits the candidates in `order`. */
  function Fanout(keys: Keys, feeds: Feeds, order: seq<string>): (r: seq<Finding>)
    ensures |r| <= 3 * |order|
  {
    if order == [] then []
    else PerCandidate(keys, feeds, order[0]) + Fanout(keys, feeds, order[1..])
  }

  /** `order` lists every element of `s` exactly once. */
  predicate IsEnumeration(order: seq<string>, s: set<string>) {
    multiset(order) == multiset(s)
  }

  /** The result of `check_resource` when the candidates are visited in `order`. */
  function CheckResourceSpec(keys: Keys, feeds: Feeds, order: seq<string>, res: Resource): seq<Finding> {
    Fanout(keys, feeds, order) + Otx.SearchForResourceSpec(keys.otx, res.attributes, feeds.otx)
  }

  /** The body of the `try` in the candidate loop: the three lookups, appended in order. */
  method QueryCandidate(keys: Keys, feeds: Feeds, ip: string) returns (found: seq<Finding>)
    ensures found == PerCandidate(keys, feeds, ip)
  {
    found := [];
    var fromAbuse := AbuseIpDb.LookupIp(keys.abuse, ip, feeds.abuse(ip));
    found := found + fromAbuse;
    var fromGrey := GreyNoise.LookupIp(keys.greynoise, ip, feeds.greynoise(ip));
    found := found + fromGrey;
    var fromShodan := Shodan.LookupHost(keys.shodan, ip, feeds.shodan(ip));
    found := found + fromShodan;
    assert found == fromAbuse + fromGrey + fromShodan;
  }

  /**
   * `check_resource`. The adapters absorb their own exceptions, so the loop's
   * `except: continue` and the one around OTX are never taken. The set is
   * iterated in an order the method does not fix.
   */
  method CheckResource(keys: Keys, feeds: Feeds, res: Resource) returns (findings: seq<Finding>)
    ensures exists order ::
      (IsEnumeration(order, CandidateSet(res.attributes)) && findings == CheckResourceSpec(keys, feeds, order, res))
  {
    var attrs := res.attributes;
    findings := [];
    var ips: seq<Option<string>> := [];
    if attrs.associatePublicIp.Some? && attrs.associatePublicIp.value == Bool(true) {
      if attrs.publicIp.Some? && attrs.publicIp.value != "" {
        ips := ips + [attrs.publicIp];
      }
    }
    ips := ips + [attrs.cidrBlock];
    ips := ips + [attrs.endpoint];
    assert ips == RawCandidates(attrs);
    var candidates := set o | o in ips && Truthy(o) :: o.value;
    var visited;
    findings, visited := QueryAll(keys, feeds, candidates);
    var fromOtx := Otx.SearchForResource(keys.otx, attrs, feeds.otx);
    findings := findings + fromOtx;
    assert IsEnumeration(visited, CandidateSet(attrs));
  }

  /** The candidate loop: each candidate once, in the order the set yields them. */
  method QueryAll(keys: Keys, feeds: Feeds, candidates: set<string>) returns (findings: seq<Finding>, visited: seq<string>)
    ensures IsEnumeration(visited, candidates)
    ensures findings == Fanout(keys, feeds, visited)
  {
    findings, visited := [], [];
    var remaining := candidates;
    while remaining != {}
      invariant multiset(visited) + multiset(remaining) == multiset(candidates)
      invariant findings == Fanout(keys, feeds, visited)
      decreases |remaining|
    {
      var ip :| ip in remaining;
      var found := QueryCandidate(keys, feeds, ip);
      findings := findings + found;
      FanoutConcat(keys, feeds, visited, [ip]);
      FanoutSingle(keys, feeds, ip);
      assert multiset(remaining - {ip}) + multiset{ip} == multiset(remaining);
      visited := visited + [ip];
      remaining := remaining - {ip};
    }
  }

  /** A resource without candidates yields exactly what OTX reports. */
  lemma {:induction false} NoCandidatesOnlyOtx(keys: Keys, feeds: Feeds, order: seq<string>, res: Resource)
    requires IsEnumeration(order, CandidateSet(res.attributes))
    requires CandidateSet(res.attributes) == {}
    ensures CheckResourceSpec(keys, feeds, order, res) == Otx.SearchForResourceSpec(keys.otx, res.attributes, feeds.otx)
  {
    assert |multiset(order)| == 0;
  }

  /** The fan-out distributes over concatenated candidate orders. */
  lemma {:induction false} FanoutConcat(keys: Keys, feeds: Feeds, p: seq<string>, q: seq<string>)
    ensures Fanout(keys, feeds, p + q) == Fanout(keys, feeds, p) + Fanout(keys, feeds, q)
    decreases |p|
  {
    if p == [] {
      assert p + q == q;
    } else {
      assert (p + q)[1..] == p[1..] + q;
      FanoutConcat(keys, feeds, p[1..], q);
    }
  }

  lemma {:induction false} FanoutSingle(keys: Keys, feeds: Feeds, x: string)
    ensures Fanout(keys, feeds, [x]) == PerCandidate(keys, feeds, x)
  {
    assert [x][1..] == [];
  }

  /** The multiset of findings splits around any one visited candidate. */
  lemma {:induction false} FanoutAround(keys: Keys, feeds: Feeds, b: seq<string>, k: nat)
    requires k < |b|
    ensures multiset(Fanout(keys, feeds, b)) ==
      multiset(PerCandidate(keys, feeds, b[k])) + multiset(Fanout(keys, feeds, b[..k] + b[k + 1..]))
  {
    assert b == (b[..k] + [b[k]]) + b[k + 1..];
    FanoutConcat(keys, feeds, b[..k] + [b[k]], b[k + 1..]);
    FanoutConcat(keys, feeds, b[..k], [b[k]]);
    FanoutConcat(keys, feeds, b[..k], b[k + 1..]);
    FanoutSingle(keys, feeds, b[k]);
  }

  /** Visiting the same candidates in another order permutes the findings and nothing more. */
  lemma {:induction false} FanoutPermutation(keys: Keys, feeds: Feeds, a: seq<string>, b: seq<string>)
    requires multiset(a) == multiset(b)
    ensures multiset(Fanout(keys, feeds, a)) == multiset(Fanout(keys, feeds, b))
    decreases |a|
  {
    if a == [] {
      assert |multiset(b)| == 0;
      assert b == [];
    } else {
      var k := Multisets.PermutationSplit(a, b);
      FanoutPermutation(keys, feeds, a[1..], b[..k] + b[k + 1..]);
      FanoutAround(keys, feeds, a, 0);
      assert a[..0] + a[1..] == a[1..];
      FanoutAround(keys, feeds, b, k);
    }
  }

  /** Whatever order the set is iterated in, `check_resource` returns the same findings up to order. */
  lemma {:induction false} CheckResourceOrderIrrelevant(keys: Keys, feeds: Feeds, o1: seq<string>, o2: seq<string>, res: Resource)
    requires IsEnumeration(o1, CandidateSet(res.attributes))
    requires IsEnumeration(o2, CandidateSet(res.attributes))
    ensures multiset(CheckResourceSpec(keys, feeds, o1, res)) == multiset(CheckResourceSpec(keys, feeds, o2, res))
  {
    FanoutPermutation(keys, feeds, o1, o2);
  }

  /** Without any API keys every candidate yields exactly three LOW placeholders, one per adapter. */
  lemma {:induction false} DevModeFanout(feeds: Feeds, order: seq<string>)
    requires forall i :: 0 <= i < |order| ==> order[i] != ""
    ensures |Fanout(Keys(false, false, false, false), feeds, order)| == 3 * |order|
    ensures forall f :: f in Fanout(Keys(false, false, false, false), feeds, order) ==>
      f.risk == Some("LOW") && f.evidence == Some(NoKeyEvidence)
    decreases |order|
  {
    if order != [] {
      DevModeFanout(feeds, order[1..]);
    }
  }

  lemma {:induction false} FanoutNeverCritical(keys: Keys, feeds: Feeds, order: seq<string>)
    ensures forall f :: f in Fanout(keys, feeds, order) ==> f.risk != Some("CRITICAL")
    decreases |order|
  {
    if order != [] {
      FanoutNeverCritical(keys, feeds, order[1..]);
    }
  }

  /** No adapter reports CRITICAL, so neither does `check_resource`. */
  lemma {:induction false} NeverCritical(keys: Keys, feeds: Feeds, order: seq<string>, res: Resource)
    ensures forall f :: f in CheckResourceSpec(keys, feeds, order, res) ==> f.risk != Some("CRITICAL")
  {
    FanoutNeverCritical(keys, feeds, order);
    var cands := Otx.Candidates(res.attributes);
    Otx.SearchFindings(keys.otx, cands, feeds.otx);
    if !keys.otx {
      Otx.SearchWithoutKey(cands, feeds.otx);
    }
  }
}
