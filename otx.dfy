/**
 * The AlienVault OTX adapter (`OTXAdapter.search_for_resource`): it inspects the
 * resource itself, looks up its endpoint and public address, and reports a
 * HIGH finding for each indicator whose reputation is malicious.
 */
module Otx {
  import opened Wrappers
  import opened Levels
  import opened Resources

  /**
   * `OtxFailed` when the request or decoding raises. Otherwise the status code,
   * whether the reply has a truthy `reputation` with a truthy `malicious` entry,
   * and `str(reputation)`.
   */
  datatype OtxResponse = OtxFailed | OtxReply(status: int, malicious: bool, reputationText: string)

  const Feed: string := "otx"

  /** `endpoint`, then `public_ip`, each when truthy; not deduplicated. */
  function Candidates(attrs: Attributes): (c: seq<string>)
    ensures |c| <= 2
    ensures forall x :: x in c ==> x != ""
    ensures |c| == (if Truthy(attrs.endpoint) then 1 else 0) + (if Truthy(attrs.publicIp) then 1 else 0)
    ensures Truthy(attrs.endpoint) ==> c[0] == attrs.endpoint.value
    ensures Truthy(attrs.publicIp) ==> c[|c| - 1] == attrs.publicIp.value
    ensures c == [] <==> !Truthy(attrs.endpoint) && !Truthy(attrs.publicIp)
  {
    (if Truthy(attrs.endpoint) then [attrs.endpoint.value] else []) +
    (if Truthy(attrs.publicIp) then [attrs.publicIp.value] else [])
  }

  function Placeholder(c: string): Finding {
    RawFinding(Feed, IndicatorSubject(c), "LOW", NoKeyEvidence)
  }

  function Hit(c: string, reputationText: string): Finding {
    RawFinding(Feed, IndicatorSubject(c), Name(HIGH), reputationText)
  }

  /** What one candidate contributes when a key is configured and its lookup does not raise. */
  function Contribution(c: string, resp: OtxResponse): seq<Finding>
    requires resp.OtxReply?
  {
    if resp.status == 200 && resp.malicious then [Hit(c, resp.reputationText)] else []
  }

  /** The findings of the candidate loop; a raising lookup ends it, keeping what was gathered. */
  function Search(hasKey: bool, cands: seq<string>, otx: string -> OtxResponse): (r: seq<Finding>)
    ensures |r| <= |cands|
    decreases |cands|
  {
    if cands == [] then []
    else if !hasKey then [Placeholder(cands[0])] + Search(hasKey, cands[1..], otx)
    else match otx(cands[0])
      case OtxFailed => []
      case OtxReply(_, _, _) => Contribution(cands[0], otx(cands[0])) + Search(hasKey, cands[1..], otx)
  }

  /** The findings `search_for_resource` returns for a resource with these attributes. */
  function SearchForResourceSpec(hasKey: bool, attrs: Attributes, otx: string -> OtxResponse): seq<Finding> {
    Search(hasKey, Candidates(attrs), otx)
  }

  /** `search_for_resource` */
  method SearchForResource(hasKey: bool, attrs: Attributes, otx: string -> OtxResponse) returns (findings: seq<Finding>)
    ensures findings == SearchForResourceSpec(hasKey, attrs, otx)
    ensures |findings| <= |Candidates(attrs)|
  {
    var candidates: seq<string> := [];
    if attrs.endpoint.Some? && attrs.endpoint.value != "" {
      candidates := candidates + [attrs.endpoint.value];
    }
    if attrs.publicIp.Some? && attrs.publicIp.value != "" {
      candidates := candidates + [attrs.publicIp.value];
    }
    assert candidates == Candidates(attrs);
    findings := SearchCandidates(hasKey, candidates, otx);
  }

  /** The candidate loop, with `continue` in the keyless branch and the `try` around it. */
  method SearchCandidates(hasKey: bool, candidates: seq<string>, otx: string -> OtxResponse) returns (findings: seq<Finding>)
    ensures findings == Search(hasKey, candidates, otx)
  {
    findings := [];
    var rest := candidates;
    while rest != []
      invariant Search(hasKey, candidates, otx) == findings + Search(hasKey, rest, otx)
      decreases |rest|
    {
      SearchUnfold(hasKey, rest, otx);
      var found, stop := SearchStep(hasKey, rest[0], otx);
      if stop {
        // the exception leaves the loop; the findings gathered so far are returned
        assert Search(hasKey, rest, otx) == [];
        assert findings + [] == findings;
        return;
      }
      ghost var later := Search(hasKey, rest[1..], otx);
      assert Search(hasKey, rest, otx) == found + later;
      assert findings + (found + later) == (findings + found) + later;
      findings := findings + found;
      rest := rest[1..];
    }
  }

  /** One pass of the candidate loop: what the candidate adds, or `stop` when its lookup raises. */
  method SearchStep(hasKey: bool, c: string, otx: string -> OtxResponse) returns (found: seq<Finding>, stop: bool)
    ensures stop <==> hasKey && otx(c).OtxFailed?
    ensures !stop && !hasKey ==> found == [Placeholder(c)]
    ensures !stop && hasKey ==> found == Contribution(c, otx(c))
  {
    found, stop := [], false;
    if !hasKey {
      found := [Placeholder(c)];
      return;
    }
    var resp := otx(c);
    if resp.OtxFailed? {
      stop := true;
      return;
    }
    if resp.status == 200 && resp.malicious {
      found := [Hit(c, resp.reputationText)];
    }
  }

  lemma {:induction false} SearchUnfold(hasKey: bool, cands: seq<string>, otx: string -> OtxResponse)
    requires cands != []
    ensures !hasKey ==> Search(hasKey, cands, otx) == [Placeholder(cands[0])] + Search(hasKey, cands[1..], otx)
    ensures hasKey && otx(cands[0]).OtxFailed? ==> Search(hasKey, cands, otx) == []
    ensures hasKey && otx(cands[0]).OtxReply? ==>
      Search(hasKey, cands, otx) == Contribution(cands[0], otx(cands[0])) + Search(hasKey, cands[1..], otx)
  {
  }

  /** Without a key the search yields one LOW placeholder per candidate, in candidate order. */
  lemma {:induction false} SearchWithoutKey(cands: seq<string>, otx: string -> OtxResponse)
    ensures |Search(false, cands, otx)| == |cands|
    ensures forall i :: 0 <= i < |cands| ==> Search(false, cands, otx)[i] == Placeholder(cands[i])
    decreases |cands|
  {
    if cands != [] {
      SearchWithoutKey(cands[1..], otx);
    }
  }

  /** Every finding of the search is an OTX finding, and with a key every one is HIGH. */
  lemma {:induction false} SearchFindings(hasKey: bool, cands: seq<string>, otx: string -> OtxResponse)
    ensures forall f :: f in Search(hasKey, cands, otx) ==> f.feed == Some(Feed)
    ensures hasKey ==> forall f :: f in Search(hasKey, cands, otx) ==> f.risk == Some("HIGH") && f.riskLevel == None
    decreases |cands|
  {
    if cands != [] {
      SearchFindings(hasKey, cands[1..], otx);
    }
  }

  /** Without a key every candidate gets one LOW placeholder, so no candidates means no findings. */
  lemma {:induction false} NoKeyPlaceholders(attrs: Attributes, otx: string -> OtxResponse)
    ensures |SearchForResourceSpec(false, attrs, otx)| == |Candidates(attrs)|
    ensures Candidates(attrs) == [] ==> SearchForResourceSpec(false, attrs, otx) == []
  {
    SearchWithoutKey(Candidates(attrs), otx);
  }

  /** A lookup that raises ends the search: exactly the findings of the earlier candidates survive. */
  lemma {:induction false} SearchStopsAtFailure(cands: seq<string>, otx: string -> OtxResponse, k: nat)
    requires k < |cands| && otx(cands[k]).OtxFailed?
    ensures Search(true, cands, otx) == Search(true, cands[..k], otx)
    decreases k
  {
    if k > 0 {
      assert cands[1..][..k - 1] == cands[..k][1..];
      SearchStopsAtFailure(cands[1..], otx, k - 1);
    }
  }

  /** With a key and no raising lookup, each candidate contributes a HIGH finding iff its reply is 200 and malicious, in order. */
  lemma {:induction false} SearchAppend(cands: seq<string>, c: string, otx: string -> OtxResponse)
    requires forall j :: 0 <= j < |cands| ==> otx(cands[j]).OtxReply?
    requires otx(c).OtxReply?
    ensures Search(true, cands + [c], otx) == Search(true, cands, otx) + Contribution(c, otx(c))
    decreases |cands|
  {
    if cands == [] {
      assert Search(true, [c], otx) == Contribution(c, otx(c)) + Search(true, [], otx);
    } else {
      assert (cands + [c])[1..] == cands[1..] + [c];
      SearchAppend(cands[1..], c, otx);
    }
  }
}
