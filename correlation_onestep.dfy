/**
 * The earlier correlation engine: a finding of a public-facing resource is
 * escalated by exactly one level, capped at CRITICAL, with a note; any other
 * finding only gets its level copied into `risk_level`.
 */
module CorrelationOneStep {
  import opened Wrappers
  import opened Strings
  import opened Levels
  import opened Resources
  import opened Exposure
  import Escalation
  import CorrelationDeployed

  /** `escalate_risk(level)`: one level up from the level's rank (LOW when unknown), capped at CRITICAL. */
  function StepUp(level: string): (r: Severity)
    ensures Rank(r) == if Escalation.CurrentRank(level) < 4 then Escalation.CurrentRank(level) + 1 else 4
  {
    var currentWeight := RankOr(Upper(level), 1);
    var newWeight := if currentWeight + 1 < 4 then currentWeight + 1 else 4;
    OfRank(newWeight).value
  }

  /** A CRITICAL finding stays CRITICAL and every other known level rises by one. */
  lemma {:induction false} StepUpTable()
    ensures StepUp("LOW") == MEDIUM && StepUp("MEDIUM") == HIGH
    ensures StepUp("HIGH") == CRITICAL && StepUp("CRITICAL") == CRITICAL
  {
    Escalation.CurrentRankOfName(LOW);
    Escalation.CurrentRankOfName(MEDIUM);
    Escalation.CurrentRankOfName(HIGH);
    Escalation.CurrentRankOfName(CRITICAL);
  }

  /** A level outside the table counts as LOW and so becomes MEDIUM. */
  lemma {:induction false} StepUpUnknown(level: string)
    requires Parse(Upper(level)).None?
    ensures StepUp(level) == MEDIUM
  {
  }

  /** The level read: `risk` if the key is present, else `risk_level`, else LOW; upper-cased. */
  function LevelOf(f: Finding): string {
    Upper(ChosenLevel(RiskKeyFirst, f))
  }

  /** The escalation note: the read and the stepped level first, the original evidence last. */
  function StepDetails(level: string, escalated: Severity, f: Finding): (d: string)
    ensures StartsWith(d, "Risk escalated from " + level + " to " + Name(escalated))
    ensures EndsWith(d, " due to public exposure. Original evidence: " + EvidenceText(f))
  {
    "Risk escalated from " + level + " to " + Name(escalated) +
    " due to public exposure. Original evidence: " + EvidenceText(f)
  }

  /** One finding after correlation. */
  function CorrelateOne(public: bool, f: Finding): (g: Finding)
    ensures g.feed == f.feed && g.subject == f.subject && g.risk == f.risk && g.evidence == f.evidence
    ensures g.contextFlags == f.contextFlags
    ensures public ==> g.riskLevel == Some(Name(StepUp(LevelOf(f)))) && g.details.Some?
    ensures !public ==> g == f.(riskLevel := Some(LevelOf(f)))
  {
    var lvl := LevelOf(f);
    if public then
      f.(riskLevel := Some(Name(StepUp(lvl))), details := Some(StepDetails(lvl, StepUp(lvl), f)))
    else
      f.(riskLevel := Some(lvl))
  }

  /** `correlate_threats(resource, findings)`: one correlated copy per finding, in order; it never raises. */
  function Correlate(res: Resource, fs: seq<Finding>): (r: seq<Finding>)
    ensures |r| == |fs|
    ensures forall i :: 0 <= i < |fs| ==> r[i] == CorrelateOne(IsPublic(res.attributes), fs[i])
  {
    seq(|fs|, i requires 0 <= i < |fs| => CorrelateOne(IsPublic(res.attributes), fs[i]))
  }

  /** The three `if` tests that set `public`. */
  method DetectPublic(attrs: Attributes) returns (public: bool)
    ensures public == IsPublic(attrs)
  {
    public := false;
    if PublicAcl(attrs) || IsTrue(attrs.public) {
      public := true;
    }
    if IsTrue(attrs.associatePublicIp) {
      public := true;
    }
    if Contains(attrs.text, "0.0.0.0/0") {
      public := true;
    }
  }

  /** The loop body: the copy with `risk_level`, and for a public resource the note. */
  method CopyWithLevel(public: bool, f: Finding) returns (g: Finding)
    ensures g == CorrelateOne(public, f)
  {
    g := f;
    var lvl := ChosenLevel(RiskKeyFirst, g);
    lvl := Upper(lvl);
    if public {
      var newLvl := StepUp(lvl);
      g := g.(riskLevel := Some(Name(newLvl)));
      g := g.(details := Some(StepDetails(lvl, newLvl, f)));
    } else {
      g := g.(riskLevel := Some(lvl));
    }
  }

  /** `correlate_threats` */
  method CorrelateThreats(res: Resource, fs: seq<Finding>) returns (correlated: seq<Finding>)
    ensures correlated == Correlate(res, fs)
  {
    var public := DetectPublic(res.attributes);
    correlated := [];
    var i := 0;
    while i < |fs|
      invariant 0 <= i <= |fs|
      invariant |correlated| == i
      invariant forall j :: 0 <= j < i ==> correlated[j] == CorrelateOne(public, fs[j])
    {
      var g := CopyWithLevel(public, fs[i]);
      correlated := correlated + [g];
      i := i + 1;
    }
    assert correlated == Correlate(res, fs);
  }

  /**
   * For a public resource whose ports are well-formed, the deployed engine and
   * this one agree on every finding's new level: the deployed engine's offset
   * of at least 0.7 rounds to the same single step.
   */
  lemma {:induction false} AgreesWithDeployedWhenPublic(res: Resource, fs: seq<Finding>, i: nat)
    requires IsPublic(res.attributes) && CorrelationDeployed.Correlate(res, fs).Ok? && i < |fs|
    ensures CorrelationDeployed.Correlate(res, fs).value[i].riskLevel == Correlate(res, fs)[i].riskLevel
  {
    var ctx := CorrelationDeployed.ContextOf(res.attributes).value;
    var lvl := LevelOf(fs[i]);
    EscalatedStep(lvl, ctx);
    RankInjective(Escalated(lvl, ctx), StepUp(lvl));
  }

  /** Re-correlating a finding that has a `risk`, for a resource that is not public, changes nothing. */
  lemma {:induction false} NotPublicIdempotent(f: Finding)
    requires f.risk.Some?
    ensures CorrelateOne(false, CorrelateOne(false, f)) == CorrelateOne(false, f)
  {
  }
}
