/**
 * The richest correlation engine: it derives the resource context (public,
 * sensitive, exposed ports), escalates every finding by the exposure factor,
 * scores the result with the confidence-weighted aggregator, and
 * `evaluate_resource_risk` bundles all of it into one explainable record.
 *
 * In this version a `port` key whose value is not iterable, or an entry that
 * `int()` rejects, raises out of `correlate_threats`; the level is read with
 * `risk_level` first and `or`.
 */
module CorrelationFull {
  import opened Wrappers
  import opened Strings
  import opened Levels
  import opened Resources
  import opened Exposure
  import Escalation
  import WeightedScoring

  /** `exposed_ports`: only when the `port` key is present; a null value is not iterable. */
  function PortsOf(attrs: Attributes): (r: Result<seq<int>>)
    ensures attrs.port.None? ==> r == Ok([])
    ensures attrs.port == Some(PortNull) ==> r == Raise(TypeError)
  {
    match attrs.port
    case None => Ok([])
    case Some(p) => if p.PortNull? then Raise(TypeError) else ScanItems(AsItems(p), false)
  }

  /** The port block: every entry goes through `int()`, and any failure propagates. */
  method ExposedPorts(attrs: Attributes) returns (r: Result<seq<int>>)
    ensures r == PortsOf(attrs)
  {
    var exposed: seq<int> := [];
    if attrs.port.None? {
      return Ok(exposed);
    }
    var ports := attrs.port.value;
    if ports.PortNull? {
      return Raise(TypeError);
    }
    var items := AsItems(ports);
    var rest := items;
    PrependLaws([], [], ScanItems(items, false));
    while rest != []
      invariant ScanItems(items, false) == Prepend(exposed, ScanItems(rest, false))
      decreases |rest|
    {
      var v := ItemValue(rest[0]);
      if v.Raise? {
        return Raise(v.error);
      }
      var found := if IsSensitivePort(v.value) then [v.value] else [];
      PrependLaws(exposed, found, ScanItems(rest[1..], false));
      if IsSensitivePort(v.value) {
        exposed := exposed + [v.value];
      } else {
        assert exposed + [] == exposed;
      }
      rest := rest[1..];
    }
    assert exposed + [] == exposed;
    return Ok(exposed);
  }

  /**
   * The context of a resource, or the exception the port block raises. It is
   * the deployed engine's `ContextOf` except through this file's `PortsOf`.
   */
  function ContextOf(attrs: Attributes): (r: Result<Context>)
    ensures r.Raise? <==> PortsOf(attrs).Raise?
    ensures r.Ok? ==> r.value.public == IsPublic(attrs) && r.value.sensitive == IsSensitive(attrs)
  {
    match PortsOf(attrs)
    case Ok(ports) => Ok(Context(IsPublic(attrs), IsSensitive(attrs), ports))
    case Raise(e) => Raise(e)
  }

  /** The level this engine reads: `risk_level` when truthy, else `risk`, else LOW; upper-cased. */
  function LevelOf(f: Finding): string {
    Upper(ChosenLevel(LevelTruthyFirst, f))
  }

  /** The escalation note: it names the read and the escalated level first and ends with the evidence. */
  function EscalationDetails(level: string, escalated: Severity, ctx: Context, f: Finding): (d: string)
    ensures StartsWith(d, "Escalated " + level + "\U{2192}" + Name(escalated) + " due to ")
    ensures EndsWith(d, " context (factor=" + FactorText(FactorTenths(ctx)) + "). Evidence: " + EvidenceText(f))
  {
    var head := "Escalated " + level + "\U{2192}" + Name(escalated) + " due to ";
    var tail := " context (factor=" + FactorText(FactorTenths(ctx)) + "). Evidence: " + EvidenceText(f);
    assert (head + Join(Flags(ctx), ", ") + tail)[..|head|] == head;
    assert (head + Join(Flags(ctx), ", ") + tail)[|head + Join(Flags(ctx), ", ")|..] == tail;
    head + Join(Flags(ctx), ", ") + tail
  }

  /**
   * One finding after correlation: a copy with `risk_level` set (escalated when
   * any signal holds, in which case `details` explains it) and `context_flags`
   * attached.
   */
  function CorrelateOne(ctx: Context, f: Finding): (g: Finding)
    ensures g.feed == f.feed && g.subject == f.subject && g.risk == f.risk && g.evidence == f.evidence
    ensures g.contextFlags == Some(Flags(ctx))
    ensures FactorTenths(ctx) == 10 ==> g.riskLevel == Some(LevelOf(f)) && g.details == f.details
    ensures FactorTenths(ctx) > 10 ==>
      (g.details.Some? && g.riskLevel.Some? && Parse(g.riskLevel.value).Some? &&
       Rank(Parse(g.riskLevel.value).value) >= Escalation.CurrentRank(LevelOf(f)))
  {
    var lvl := LevelOf(f);
    if FactorTenths(ctx) > 10 then
      var escalated := Escalated(lvl, ctx);
      ParseName(escalated);
      f.(riskLevel := Some(Name(escalated)), details := Some(EscalationDetails(lvl, escalated, ctx, f)),
         contextFlags := Some(Flags(ctx)))
    else
      f.(riskLevel := Some(lvl), contextFlags := Some(Flags(ctx)))
  }

  /** The two shapes of a correlated copy, as the loop builds them. */
  lemma {:induction false} CorrelateOneCases(ctx: Context, f: Finding)
    ensures FactorTenths(ctx) > 10 ==> (CorrelateOne(ctx, f) ==
      f.(riskLevel := Some(Name(Escalated(LevelOf(f), ctx))),
         details := Some(EscalationDetails(LevelOf(f), Escalated(LevelOf(f), ctx), ctx, f)))
       .(contextFlags := Some(Flags(ctx))))
    ensures FactorTenths(ctx) == 10 ==> CorrelateOne(ctx, f) == f.(riskLevel := Some(LevelOf(f))).(contextFlags := Some(Flags(ctx)))
  {
  }

  /**
   * The findings of `correlate_threats` for a context: one correlated copy per
   * finding, in order. It differs from the deployed engine's only through this
   * file's `CorrelateOne`.
   */
  function CorrelateAll(ctx: Context, fs: seq<Finding>): (r: seq<Finding>)
    ensures |r| == |fs|
    ensures forall i :: 0 <= i < |fs| ==> r[i] == CorrelateOne(ctx, fs[i])
  {
    seq(|fs|, i requires 0 <= i < |fs| => CorrelateOne(ctx, fs[i]))
  }

  /** `correlate_threats(resource, findings)` */
  function Correlate(res: Resource, fs: seq<Finding>): Result<seq<Finding>> {
    match ContextOf(res.attributes)
    case Ok(ctx) => Ok(CorrelateAll(ctx, fs))
    case Raise(e) => Raise(e)
  }

  /**
   * The context block of `correlate_threats`: the two signals and the port
   * block, as in the deployed engine except through this file's `PortsOf`.
   */
  method DetectContext(attrs: Attributes) returns (r: Result<Context>)
    ensures r == ContextOf(attrs)
  {
    var public := IsTrue(attrs.public) || IsTrue(attrs.associatePublicIp) || PublicAcl(attrs) ||
      Contains(attrs.text, "0.0.0.0/0");
    var sensitive := Contains(Lower(attrs.tagsText), "prod") || Contains(Lower(attrs.tagsText), "critical") ||
      Contains(Lower(NameText(attrs)), "db") || Contains(Lower(NameText(attrs)), "backup");
    var ports := ExposedPorts(attrs);
    if ports.Raise? {
      return Raise(ports.error);
    }
    return Ok(Context(public, sensitive, ports.value));
  }

  /** The loop body: the copy of one finding with its level, explanation and flags set. */
  method CopyWithContext(ctx: Context, exposureFactor: nat, contextFlags: seq<string>, f: Finding) returns (g: Finding)
    requires exposureFactor == FactorTenths(ctx) && contextFlags == Flags(ctx)
    ensures g == CorrelateOne(ctx, f)
  {
    var lvl := ChosenLevel(LevelTruthyFirst, f);
    lvl := Upper(lvl);
    g := f;
    if exposureFactor > 10 {
      var newLvl := Escalated(lvl, ctx);
      g := g.(riskLevel := Some(Name(newLvl)), details := Some(EscalationDetails(lvl, newLvl, ctx, f)));
    } else {
      g := g.(riskLevel := Some(lvl));
    }
    g := g.(contextFlags := Some(contextFlags));
    CorrelateOneCases(ctx, f);
  }

  /**
   * The factor and the flags of a context, then the loop that copies and
   * escalates every finding, as in the deployed engine except through this
   * file's `CorrelateOne`.
   */
  method EscalateFindings(ctx: Context, fs: seq<Finding>) returns (correlated: seq<Finding>)
    ensures correlated == CorrelateAll(ctx, fs)
  {
    var exposureFactor, contextFlags := ContextIntensity(ctx);
    correlated := [];
    var i := 0;
    while i < |fs|
      invariant 0 <= i <= |fs|
      invariant correlated == CorrelateAll(ctx, fs[..i])
    {
      var g := CopyWithContext(ctx, exposureFactor, contextFlags, fs[i]);
      CorrelateAllSnoc(ctx, fs, i);
      correlated := correlated + [g];
      i := i + 1;
    }
    assert fs[..i] == fs;
  }

  /** One more finding adds its correlated copy at the end. */
  lemma {:induction false} CorrelateAllSnoc(ctx: Context, fs: seq<Finding>, i: nat)
    requires i < |fs|
    ensures CorrelateAll(ctx, fs[..i + 1]) == CorrelateAll(ctx, fs[..i]) + [CorrelateOne(ctx, fs[i])]
  {
    var l, r := CorrelateAll(ctx, fs[..i + 1]), CorrelateAll(ctx, fs[..i]) + [CorrelateOne(ctx, fs[i])];
    assert |l| == |r|;
    forall j | 0 <= j < |l| ensures l[j] == r[j] {
      assert fs[..i + 1][j] == fs[j];
      assert l[j] == CorrelateOne(ctx, fs[j]);
      if j < i {
        assert fs[..i][j] == fs[j];
        assert r[j] == CorrelateAll(ctx, fs[..i])[j];
      } else {
        assert r[j] == CorrelateOne(ctx, fs[i]);
      }
    }
  }

  /** `correlate_threats`; it differs from the deployed engine's only through this file's `PortsOf` and `CorrelateOne`. */
  method CorrelateThreats(res: Resource, fs: seq<Finding>) returns (r: Result<seq<Finding>>)
    ensures r == Correlate(res, fs)
  {
    var ctx := DetectContext(res.attributes);
    if ctx.Raise? {
      return Raise(ctx.error);
    }
    var correlated := EscalateFindings(ctx.value, fs);
    return Ok(correlated);
  }

  /**
   * The escalation a finding receives: none without signals; one step
   * (capped at CRITICAL) when the resource is public or sensitive with exposed
   * ports; and none for sensitivity alone or exposed ports alone, whose
   * offsets 0.4 and 0.3 round away.
   */
  lemma {:induction false} CorrelateEscalation(res: Resource, fs: seq<Finding>, i: nat)
    requires Correlate(res, fs).Ok? && i < |fs|
    ensures var ctx := ContextOf(res.attributes).value;
      var g := Correlate(res, fs).value[i];
      var c := Escalation.CurrentRank(LevelOf(fs[i]));
      g.riskLevel.Some? &&
      (FactorTenths(ctx) > 10 ==>
        (Parse(g.riskLevel.value).Some? &&
         Rank(Parse(g.riskLevel.value).value) == if Bumps(ctx) then (if c < 4 then c + 1 else 4) else c))
  {
    var ctx := ContextOf(res.attributes).value;
    EscalatedStep(LevelOf(fs[i]), ctx);
    ParseName(Escalated(LevelOf(fs[i]), ctx));
  }

  /** A port entry `int()` rejects makes `correlate_threats` raise instead of returning findings. */
  lemma {:induction false} BadPortRaises(res: Resource, fs: seq<Finding>, items: seq<PortItem>, k: nat)
    requires res.attributes.port == Some(PortList(items))
    requires k < |items| && ItemValue(items[k]).Raise?
    ensures Correlate(res, fs).Raise?
  {
    ScanItemsOk(items, false);
  }

  /** This module's `calculate_risk`: the weighted scorer, reading a truthy `risk_level` first. */
  method CalculateRisk(fs: seq<Finding>) returns (risk: Severity)
    ensures risk == WeightedScoring.Score(LevelTruthyFirst, fs)
  {
    risk := WeightedScoring.CalculateRisk(LevelTruthyFirst, fs);
  }

  /** The resource summary `evaluate_resource_risk` returns; the mean score is kept as total and count. */
  datatype Evaluation = Evaluation(
    resourceName: string,
    finalRisk: Severity,
    scoreTotal: nat,
    scoreCount: nat,
    contextSummary: seq<string>,
    findings: seq<Finding>)

  /** The sum of `severity_scores[f["risk_level"]]`; a level outside the table is a KeyError. */
  function ScoreSum(fs: seq<Finding>): (r: Result<nat>)
    ensures r.Raise? ==> r.error == KeyError
    ensures r.Ok? <==> forall i :: 0 <= i < |fs| ==> fs[i].riskLevel.Some? && Parse(fs[i].riskLevel.value).Some?
  {
    if fs == [] then Ok(0)
    else if fs[0].riskLevel.None? || Parse(fs[0].riskLevel.value).None? then Raise(KeyError)
    else match ScoreSum(fs[1..])
      case Ok(rest) => Ok(Weight(Parse(fs[0].riskLevel.value).value) + rest)
      case Raise(e) => Raise(e)
  }

  /** How many findings carry exactly this `risk_level`. */
  function LevelCount(fs: seq<Finding>, name: string): (n: nat)
    ensures n <= |fs|
  {
    if fs == [] then 0 else (if fs[0].riskLevel == Some(name) then 1 else 0) + LevelCount(fs[1..], name)
  }

  /** The score total counts each finding by its level: 1 per LOW, 3 per MEDIUM, 6 per HIGH, 10 per CRITICAL. */
  lemma {:induction false} ScoreSumCounts(fs: seq<Finding>)
    requires ScoreSum(fs).Ok?
    ensures ScoreSum(fs).value ==
      LevelCount(fs, "LOW") + 3 * LevelCount(fs, "MEDIUM") + 6 * LevelCount(fs, "HIGH") + 10 * LevelCount(fs, "CRITICAL")
  {
    if fs != [] {
      ScoreSumCounts(fs[1..]);
    }
  }

  /**
   * `evaluate_resource_risk`: correlate, score, and summarise. No findings
   * means a division by zero, and an unescalated level outside the table a
   * KeyError.
   */
  function EvaluateResourceRisk(res: Resource, fs: seq<Finding>): (r: Result<Evaluation>)
    ensures Correlate(res, fs).Raise? ==> r == Raise(Correlate(res, fs).error)
    ensures Correlate(res, fs).Ok? && fs == [] ==> r == Raise(ZeroDivisionError)
    ensures r.Ok? ==> Correlate(res, fs).Ok? && r.value.findings == Correlate(res, fs).value
    ensures r.Ok? ==> r.value.finalRisk == WeightedScoring.Score(LevelTruthyFirst, r.value.findings)
    ensures r.Ok? ==> r.value.scoreCount == |fs| > 0
    ensures r.Ok? ==> ScoreSum(r.value.findings) == Ok(r.value.scoreTotal)
    ensures Correlate(res, fs).Ok? && fs != [] ==> (r.Ok? <==> ScoreSum(Correlate(res, fs).value).Ok?)
    ensures Correlate(res, fs).Ok? && fs != [] && r.Raise? ==> r.error == KeyError
    ensures r.Ok? ==> r.value.contextSummary == Flags(ContextOf(res.attributes).value)
    ensures r.Ok? ==> r.value.resourceName == res.attributes.name.GetOr("unknown")
  {
    match Correlate(res, fs)
    case Raise(e) => Raise(e)
    case Ok(correlated) =>
      match ScoreSum(correlated)
      case Raise(e) => Raise(e)
      case Ok(total) =>
        if |correlated| == 0 then Raise(ZeroDivisionError)
        else
          Ok(Evaluation(res.attributes.name.GetOr("unknown"), WeightedScoring.Score(LevelTruthyFirst, correlated),
                        total, |correlated|, correlated[0].contextFlags.GetOr([]), correlated))
  }

  /** With any signal every level is escalated into the table, so a non-empty batch always evaluates. */
  lemma {:induction false} SignalledResourceEvaluates(res: Resource, fs: seq<Finding>)
    requires ContextOf(res.attributes).Ok? && FactorTenths(ContextOf(res.attributes).value) > 10
    requires fs != []
    ensures EvaluateResourceRisk(res, fs).Ok?
  {
  }

  /** Without signals a level outside the table survives correlation and the summary raises KeyError. */
  lemma {:induction false} UnknownLevelWithoutSignalRaises(res: Resource, fs: seq<Finding>, i: nat)
    requires ContextOf(res.attributes).Ok? && FactorTenths(ContextOf(res.attributes).value) == 10
    requires i < |fs| && Parse(LevelOf(fs[i])).None?
    ensures EvaluateResourceRisk(res, fs) == Raise(KeyError)
  {
  }

  /**
   * This engine reads `risk_level` with `or`: an empty `risk_level` falls back
   * to `risk`, where the deployed scorer, which tests for the key, scores the
   * empty name as LOW.
   */
  lemma {:induction false} EmptyLevelFallsBack(f: Finding)
    requires f.riskLevel == Some("") && f.risk == Some("CRITICAL") && f.feed == Some("otx")
    ensures WeightedScoring.Score(LevelTruthyFirst, [f]) == CRITICAL
    ensures WeightedScoring.Score(LevelKeyFirst, [f]) == LOW
  {
    ParseName(CRITICAL);
    assert Upper("") == "";
    assert Lower("otx") == "otx";
    WeightedScoring.TotalWeightSingle(f);
  }
}
