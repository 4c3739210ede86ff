/**
 * The per-resource pipeline the deployed worker runs: the aggregator's
 * findings, the deployed correlation engine, the weighted scorer and the
 * explanation builder, in that order. A resource whose correlation raises
 * yields no explanation.
 */
module Pipeline {
  import opened Wrappers
  import opened Levels
  import opened Resources
  import opened Exposure
  import opened Explanation
  import Aggregator
  import CorrelationDeployed
  import WeightedScoring
  import WorkerDeployed
  import Escalation
  import Multisets

  /** The body of the resource loop, with the candidate indicators visited in `order`. */
  function Evaluate(keys: Aggregator.Keys, feeds: Aggregator.Feeds, order: seq<string>, res: Resource): Option<ScanResult> {
    var findings := Aggregator.CheckResourceSpec(keys, feeds, order, res);
    match CorrelationDeployed.Correlate(res, findings)
    case Raise(_) => None
    case Ok(correlated) => Some(BuildExplanation(res, correlated, WeightedScoring.Score(LevelKeyFirst, correlated)))
  }

  /** `check_resource`, `correlate_threats`, `calculate_risk`, `build_explanation`. */
  method EvaluateResource(keys: Aggregator.Keys, feeds: Aggregator.Feeds, res: Resource) returns (explain: Option<ScanResult>)
    ensures exists order ::
      (Aggregator.IsEnumeration(order, Aggregator.CandidateSet(res.attributes)) && explain == Evaluate(keys, feeds, order, res))
  {
    var findings := Aggregator.CheckResource(keys, feeds, res);
    ghost var order :| Aggregator.IsEnumeration(order, Aggregator.CandidateSet(res.attributes)) &&
      findings == Aggregator.CheckResourceSpec(keys, feeds, order, res);
    var correlated := CorrelationDeployed.CorrelateThreats(res, findings);
    if correlated.Raise? {
      return None;
    }
    var score := WeightedScoring.CalculateRisk(LevelKeyFirst, correlated.value);
    return Some(BuildExplanation(res, correlated.value, score));
  }

  /** Correlation copies every finding on its own, so it maps a permutation to a permutation. */
  lemma {:induction false} CorrelateAllPermutation(ctx: Context, a: seq<Finding>, b: seq<Finding>)
    requires multiset(a) == multiset(b)
    ensures multiset(CorrelationDeployed.CorrelateAll(ctx, a)) == multiset(CorrelationDeployed.CorrelateAll(ctx, b))
  {
    var f := (x: Finding) => CorrelationDeployed.CorrelateOne(ctx, x);
    Multisets.MapPermutation(f, a, b);
    Multisets.MapIndex(f, a);
    Multisets.MapIndex(f, b);
    assert CorrelationDeployed.CorrelateAll(ctx, a) == Multisets.Map(f, a);
    assert CorrelationDeployed.CorrelateAll(ctx, b) == Multisets.Map(f, b);
  }

  /**
   * The candidate order the aggregator picks does not matter: the resource
   * gets an explanation either way or not at all, with the same score, the
   * same count and the same findings up to order.
   */
  lemma {:induction false} OrderInsensitive(keys: Aggregator.Keys, feeds: Aggregator.Feeds, o1: seq<string>, o2: seq<string>, res: Resource)
    requires Aggregator.IsEnumeration(o1, Aggregator.CandidateSet(res.attributes))
    requires Aggregator.IsEnumeration(o2, Aggregator.CandidateSet(res.attributes))
    ensures Evaluate(keys, feeds, o1, res).Some? <==> Evaluate(keys, feeds, o2, res).Some?
    ensures Evaluate(keys, feeds, o1, res).Some? ==>
      var e1, e2 := Evaluate(keys, feeds, o1, res).value, Evaluate(keys, feeds, o2, res).value;
      e1.riskScore == e2.riskScore && e1.details == e2.details && multiset(e1.findings) == multiset(e2.findings)
  {
    var f1, f2 := Aggregator.CheckResourceSpec(keys, feeds, o1, res), Aggregator.CheckResourceSpec(keys, feeds, o2, res);
    Aggregator.CheckResourceOrderIrrelevant(keys, feeds, o1, o2, res);
    var ctx := CorrelationDeployed.ContextOf(res.attributes);
    if ctx.Ok? {
      var c1, c2 := CorrelationDeployed.CorrelateAll(ctx.value, f1), CorrelationDeployed.CorrelateAll(ctx.value, f2);
      CorrelateAllPermutation(ctx.value, f1, f2);
      WeightedScoring.ScorePermutation(LevelKeyFirst, c1, c2);
      assert |c1| == |multiset(c1)| == |multiset(c2)| == |c2|;
    }
  }

  /**
   * The documented walk-through, as the code computes it: a public-read
   * bucket lifts a shodan MEDIUM finding to HIGH with the flag `public`, and
   * the single HIGH at shodan's confidence 0.7 averages to 4.2, below the
   * HIGH threshold 5: the aggregate is MEDIUM.
   */
  lemma {:induction false} PublicBucketShodanMedium(res: Resource, f: Finding)
    requires PublicAcl(res.attributes) && res.attributes.port.None?
    requires f.feed == Some("shodan") && f.risk == Some("MEDIUM")
    ensures CorrelationDeployed.Correlate(res, [f]).Ok?
    ensures var g := CorrelationDeployed.Correlate(res, [f]).value;
      |g| == 1 && g[0].riskLevel == Some("HIGH") && g[0].contextFlags.Some? && "public" in g[0].contextFlags.value &&
      WeightedScoring.Score(LevelKeyFirst, g) == MEDIUM
  {
    var g := PublicBucketEscalates(res, f);
    LoneShodanHighBatch(g);
  }

  lemma {:induction false} LoneShodanHighBatch(g: seq<Finding>)
    requires |g| == 1 && g[0].feed == Some("shodan") && WeightedScoring.LevelName(LevelKeyFirst, g[0]) == "HIGH"
    ensures WeightedScoring.Score(LevelKeyFirst, g) == MEDIUM
  {
    WeightedScoring.LoneShodanHighIsMedium(LevelKeyFirst, g[0]);
    assert g == [g[0]];
  }

  /** The correlation half of the walk-through. */
  lemma {:induction false} PublicBucketEscalates(res: Resource, f: Finding) returns (g: seq<Finding>)
    requires PublicAcl(res.attributes) && res.attributes.port.None?
    requires f.feed == Some("shodan") && f.risk == Some("MEDIUM")
    ensures CorrelationDeployed.Correlate(res, [f]) == Ok(g)
    ensures |g| == 1 && g[0].riskLevel == Some("HIGH") && g[0].contextFlags.Some? && "public" in g[0].contextFlags.value
    ensures g[0].feed == Some("shodan") && WeightedScoring.LevelName(LevelKeyFirst, g[0]) == "HIGH"
  {
    var ctx := CorrelationDeployed.ContextOf(res.attributes).value;
    assert ctx.public;
    ParseName(MEDIUM);
    var h := PublicMediumBecomesHigh(ctx, f);
    g := [h];
    ghost var all := CorrelationDeployed.CorrelateAll(ctx, [f]);
    assert |all| == 1 && all[0] == h;
    assert all == g;
    assert CorrelationDeployed.Correlate(res, [f]) == Ok(all);
  }

  /** A public context lifts a MEDIUM finding to HIGH and flags it public. */
  lemma {:induction false} PublicMediumBecomesHigh(ctx: Context, f: Finding) returns (h: Finding)
    requires ctx.public && CorrelationDeployed.LevelOf(f) == "MEDIUM"
    ensures h == CorrelationDeployed.CorrelateOne(ctx, f)
    ensures h.riskLevel == Some("HIGH") && h.contextFlags.Some? && "public" in h.contextFlags.value
    ensures h.feed == f.feed && WeightedScoring.LevelName(LevelKeyFirst, h) == "HIGH"
  {
    var lvl := CorrelationDeployed.LevelOf(f);
    Escalation.CurrentRankOfName(MEDIUM);
    EscalatedStep(lvl, ctx);
    RankInjective(Escalated(lvl, ctx), HIGH);
    h := CorrelationDeployed.CorrelateOne(ctx, f);
    ParseName(HIGH);
  }

  /** The pipeline as the worker's per-resource step, for one fixed candidate order per resource. */
  function Step(keys: Aggregator.Keys, feeds: Aggregator.Feeds, order: Resource -> seq<string>): Resource -> Option<ScanResult> {
    (res: Resource) => Evaluate(keys, feeds, order(res), res)
  }

  /**
   * A resource whose port list holds an entry `int()` rejects with a
   * TypeError is left out of the scan's results, while every other resource
   * keeps its explanation.
   */
  lemma {:induction false} BadPortResourceOmitted(keys: Aggregator.Keys, feeds: Aggregator.Feeds, order: Resource -> seq<string>,
                               parsed: seq<Resource>, i: nat)
    requires i < |parsed|
    requires parsed[i].attributes.port.Some? && PortTruthy(parsed[i].attributes.port.value)
    requires exists k :: 0 <= k < |AsItems(parsed[i].attributes.port.value)| && AsItems(parsed[i].attributes.port.value)[k].ItemOther?
    ensures Step(keys, feeds, order)(parsed[i]).None?
    ensures forall j :: 0 <= j < |parsed| && Step(keys, feeds, order)(parsed[j]).Some? ==>
      Step(keys, feeds, order)(parsed[j]).value in WorkerDeployed.Results(Step(keys, feeds, order), parsed)
  {
    var res := parsed[i];
    CorrelationDeployed.CorrelateRaises(res, Aggregator.CheckResourceSpec(keys, feeds, order(res), res));
    WorkerDeployed.ResultsExact(Step(keys, feeds, order), parsed);
  }
}
