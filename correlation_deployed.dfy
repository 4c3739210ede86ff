/**
 * The correlation engine of the deployed worker: the same context signals and
 * exposure factor as the full engine, but a `port` entry that `int()` rejects
 * with a ValueError is skipped, a falsy `port` is ignored, the level is read
 * with `risk` first (by key), and every copy gets a `details` text, also when
 * nothing escalates.
 */
module CorrelationDeployed {
  import opened Wrappers
  import opened Strings
  import opened Levels
  import opened Resources
  import opened Exposure
  import Escalation

  /** `exposed_ports`: only for a truthy `port`; entries `int()` rejects with a ValueError are skipped. */
  function PortsOf(attrs: Attributes): (r: Result<seq<int>>)
    ensures attrs.port.None? || !PortTruthy(attrs.port.value) ==> r == Ok([])
    ensures r.Raise? ==> r.error == TypeError
  {
    match attrs.port
    case None => Ok([])
    case Some(p) => if PortTruthy(p) then ScanItems(AsItems(p), true) else Ok([])
  }

  /** The port block with its `try`/`except ValueError: continue`. */
  method ExposedPorts(attrs: Attributes) returns (r: Result<seq<int>>)
    ensures r == PortsOf(attrs)
  {
    var exposed: seq<int> := [];
    if attrs.port.None? || !PortTruthy(attrs.port.value) {
      return Ok(exposed);
    }
    var items := AsItems(attrs.port.value);
    var rest := items;
    PrependLaws([], [], ScanItems(items, true));
    while rest != []
      invariant ScanItems(items, true) == Prepend(exposed, ScanItems(rest, true))
      decreases |rest|
    {
      var v := ItemValue(rest[0]);
      if v.Raise? {
        if v.error == ValueError {
          rest := rest[1..];
          continue;
        }
        return Raise(v.error);
      }
      var found := if IsSensitivePort(v.value) then [v.value] else [];
      PrependLaws(exposed, found, ScanItems(rest[1..], true));
      if IsSensitivePort(v.value) {
        exposed := exposed + [v.value];
      } else {
        assert exposed + [] == exposed;
      }
      rest := rest[1..];
    }
    assert exposed + [] == exposed;
    return Ok(exposed);
  }

  /** The context of a resource, or the TypeError the port block lets through. */
  function ContextOf(attrs: Attributes): (r: Result<Context>)
    ensures r.Raise? <==> PortsOf(attrs).Raise?
    ensures r.Ok? ==> r.value.public == IsPublic(attrs) && r.value.sensitive == IsSensitive(attrs)
  {
    match PortsOf(attrs)
    case Ok(ports) => Ok(Context(IsPublic(attrs), IsSensitive(attrs), ports))
    case Raise(e) => Raise(e)
  }

  /** The level this engine reads: `risk` if the key is present, else `risk_level`, else LOW; upper-cased. */
  function LevelOf(f: Finding): string {
    Upper(ChosenLevel(RiskKeyFirst, f))
  }

  /** The escalation note: it names the read and the escalated level first and ends with the evidence. */
  function EscalationDetails(level: string, escalated: Severity, ctx: Context, f: Finding): (d: string)
    ensures StartsWith(d, "Escalated " + level + "\U{2192}" + Name(escalated) + " due to ")
    ensures EndsWith(d, ". Evidence: " + EvidenceText(f))
  {
    var head := "Escalated " + level + "\U{2192}" + Name(escalated) + " due to ";
    var tail := " (factor=" + FactorText(FactorTenths(ctx)) + ")" + ". Evidence: " + EvidenceText(f);
    assert (head + Join(Flags(ctx), ", ") + tail)[..|head|] == head;
    assert (head + Join(Flags(ctx), ", ") + tail)[|head + Join(Flags(ctx), ", ")|..] == tail;
    head + Join(Flags(ctx), ", ") + tail
  }

  /** The note without escalation: it says so first and ends with the evidence. */
  function PlainDetails(f: Finding): (d: string)
    ensures StartsWith(d, "No escalation.")
    ensures EndsWith(d, ". Evidence: " + EvidenceText(f))
  {
    "No escalation. Evidence: " + EvidenceText(f)
  }

  /**
   * One finding after correlation: a copy whose `risk_level` is the escalated
   * level when any signal holds and the read level otherwise, with `details`
   * saying which, and `context_flags` attached.
   */
  function CorrelateOne(ctx: Context, f: Finding): (g: Finding)
    ensures g.feed == f.feed && g.subject == f.subject && g.risk == f.risk && g.evidence == f.evidence
    ensures g.contextFlags == Some(Flags(ctx))
    ensures FactorTenths(ctx) == 10 ==> g.riskLevel == Some(LevelOf(f)) && g.details == Some(PlainDetails(f))
    ensures FactorTenths(ctx) > 10 ==>
      (g.details.Some? && g.riskLevel.Some? && Parse(g.riskLevel.value).Some? &&
       Rank(Parse(g.riskLevel.value).value) >= Escalation.CurrentRank(LevelOf(f)))
  {
    var lvl := LevelOf(f);
    if FactorTenths(ctx) > 10 then
      var escalated := Escalated(lvl, ctx);
      ParseName(escalated);
      f.(riskLevel := Some(Name(escalated)), details := Some(EscalationDetails(lvl, escalated, ctx, f)),
         contextFlags := Some(Flags(ctx)))
    else
      f.(riskLevel := Some(lvl), details := Some(PlainDetails(f)), contextFlags := Some(Flags(ctx)))
  }

  /** The two notes never coincide, so `details` tells whether the finding was escalated. */
  lemma {:induction false} DetailsTellBranch(level: string, escalated: Severity, ctx: Context, f: Finding, f': Finding)
    ensures PlainDetails(f') != EscalationDetails(level, escalated, ctx, f)
  {
    assert PlainDetails(f')[0] == 'N';
    assert EscalationDetails(level, escalated, ctx, f)[0] == 'E';
  }

  /** The two shapes of a correlated copy, as the loop builds them. */
  lemma {:induction false} CorrelateOneCases(ctx: Context, f: Finding)
    ensures FactorTenths(ctx) > 10 ==> (CorrelateOne(ctx, f) ==
      f.(riskLevel := Some(Name(Escalated(LevelOf(f), ctx))))
       .(details := Some(EscalationDetails(LevelOf(f), Escalated(LevelOf(f), ctx), ctx, f)))
       .(contextFlags := Some(Flags(ctx))))
    ensures FactorTenths(ctx) == 10 ==> (CorrelateOne(ctx, f) ==
      f.(riskLevel := Some(LevelOf(f))).(details := Some(PlainDetails(f))).(contextFlags := Some(Flags(ctx))))
  {
  }

  /** The findings of `correlate_threats` for a context: one correlated copy per finding, in order. */
  function CorrelateAll(ctx: Context, fs: seq<Finding>): (r: seq<Finding>)
    ensures |r| == |fs|
    ensures forall i :: 0 <= i < |fs| ==> r[i] == CorrelateOne(ctx, fs[i])
  {
    seq(|fs|, i requires 0 <= i < |fs| => CorrelateOne(ctx, fs[i]))
  }

  /** `correlate_threats(resource, findings)` */
  function Correlate(res: Resource, fs: seq<Finding>): Result<seq<Finding>> {
    match ContextOf(res.attributes)
    case Ok(ctx) => Ok(CorrelateAll(ctx, fs))
    case Raise(e) => Raise(e)
  }

  /** The context block of `correlate_threats`: the two signals and the port block. */
  method DetectContext(attrs: Attributes) returns (r: Result<Context>)
    ensures r == ContextOf(attrs)
  {
    var public := IsTrue(attrs.public) || IsTrue(attrs.associatePublicIp) || PublicAcl(attrs) ||
      Contains(attrs.text, "0.0.0.0/0");
    var sensitive := Contains(Lower(attrs.tagsText), "prod") || Contains(Lower(attrs.tagsText), "critical") ||
      Contains(Lower(NameText(attrs)), "db") || Contains(Lower(NameText(attrs)), "backup");
    var ports := ExposedPorts(attrs);
    if ports.Raise? {
      return Raise(ports.error);
    }
    return Ok(Context(public, sensitive, ports.value));
  }

  /** The loop body: the copy of one finding with its level, explanation and flags set. */
  method CopyWithContext(ctx: Context, exposureFactor: nat, contextFlags: seq<string>, f: Finding) returns (g: Finding)
    requires exposureFactor == FactorTenths(ctx) && contextFlags == Flags(ctx)
    ensures g == CorrelateOne(ctx, f)
  {
    var lvl := ChosenLevel(RiskKeyFirst, f);
    lvl := Upper(lvl);
    g := f;
    if exposureFactor > 10 {
      var newLvl := Escalated(lvl, ctx);
      g := g.(riskLevel := Some(Name(newLvl)));
      g := g.(details := Some(EscalationDetails(lvl, newLvl, ctx, f)));
    } else {
      g := g.(riskLevel := Some(lvl));
      g := g.(details := Some(PlainDetails(f)));
    }
    g := g.(contextFlags := Some(contextFlags));
    CorrelateOneCases(ctx, f);
  }

  /** The factor and the flags of a context, then the loop that copies and escalates every finding. */
  method EscalateFindings(ctx: Context, fs: seq<Finding>) returns (correlated: seq<Finding>)
    ensures correlated == CorrelateAll(ctx, fs)
  {
    var exposureFactor, contextFlags := ContextIntensity(ctx);
    correlated := [];
    var i := 0;
    while i < |fs|
      invariant 0 <= i <= |fs|
      invariant correlated == CorrelateAll(ctx, fs[..i])
    {
      var g := CopyWithContext(ctx, exposureFactor, contextFlags, fs[i]);
      CorrelateAllSnoc(ctx, fs, i);
      correlated := correlated + [g];
      i := i + 1;
    }
    assert fs[..i] == fs;
  }

  /** One more finding adds its correlated copy at the end. */
  lemma {:induction false} CorrelateAllSnoc(ctx: Context, fs: seq<Finding>, i: nat)
    requires i < |fs|
    ensures CorrelateAll(ctx, fs[..i + 1]) == CorrelateAll(ctx, fs[..i]) + [CorrelateOne(ctx, fs[i])]
  {
    var l, r := CorrelateAll(ctx, fs[..i + 1]), CorrelateAll(ctx, fs[..i]) + [CorrelateOne(ctx, fs[i])];
    assert |l| == |r|;
    forall j | 0 <= j < |l| ensures l[j] == r[j] {
      assert fs[..i + 1][j] == fs[j];
      assert l[j] == CorrelateOne(ctx, fs[j]);
      if j < i {
        assert fs[..i][j] == fs[j];
        assert r[j] == CorrelateAll(ctx, fs[..i])[j];
      } else {
        assert r[j] == CorrelateOne(ctx, fs[i]);
      }
    }
  }

  /** `correlate_threats` */
  method CorrelateThreats(res: Resource, fs: seq<Finding>) returns (r: Result<seq<Finding>>)
    ensures r == Correlate(res, fs)
  {
    var ctx := DetectContext(res.attributes);
    if ctx.Raise? {
      return Raise(ctx.error);
    }
    var correlated := EscalateFindings(ctx.value, fs);
    return Ok(correlated);
  }

  /**
   * The escalation a finding receives: none without signals; one step
   * (capped at CRITICAL) when the resource is public or sensitive with exposed
   * ports; and none for sensitivity alone or exposed ports alone, whose
   * offsets 0.4 and 0.3 round away.
   */
  lemma {:induction false} CorrelateEscalation(res: Resource, fs: seq<Finding>, i: nat)
    requires Correlate(res, fs).Ok? && i < |fs|
    ensures var ctx := ContextOf(res.attributes).value;
      var g := Correlate(res, fs).value[i];
      var c := Escalation.CurrentRank(LevelOf(fs[i]));
      g.riskLevel.Some? && Parse(g.riskLevel.value).Some? ==>
        Rank(Parse(g.riskLevel.value).value) == if Bumps(ctx) then (if c < 4 then c + 1 else 4) else c
  {
    var ctx := ContextOf(res.attributes).value;
    var g := Correlate(res, fs).value[i];
    var lvl := LevelOf(fs[i]);
    if FactorTenths(ctx) > 10 {
      EscalatedStep(lvl, ctx);
      ParseName(Escalated(lvl, ctx));
    } else if Parse(lvl).Some? {
      ParseName(Parse(lvl).value);
    }
  }

  /**
   * A public-read bucket flags every correlated finding `public`, raises its
   * level one step (capped at CRITICAL) and explains the escalation, with a
   * factor above 1.0.
   */
  lemma {:induction false} PublicAclFlagsEveryFinding(res: Resource, fs: seq<Finding>, i: nat)
    requires PublicAcl(res.attributes) && Correlate(res, fs).Ok? && i < |fs|
    ensures var ctx := ContextOf(res.attributes).value;
      var g := Correlate(res, fs).value[i];
      FactorTenths(ctx) > 10 && g.contextFlags.Some? && "public" in g.contextFlags.value &&
      g.details == Some(EscalationDetails(LevelOf(fs[i]), Escalated(LevelOf(fs[i]), ctx), ctx, fs[i]))
    ensures var g := Correlate(res, fs).value[i];
      var c := Escalation.CurrentRank(LevelOf(fs[i]));
      g.riskLevel.Some? && Parse(g.riskLevel.value).Some? &&
      Rank(Parse(g.riskLevel.value).value) == (if c < 4 then c + 1 else 4)
  {
    var ctx := ContextOf(res.attributes).value;
    EscalatedStep(LevelOf(fs[i]), ctx);
    ParseName(Escalated(LevelOf(fs[i]), ctx));
  }

  /** The port block raises exactly when a truthy `port` holds an entry `int()` rejects with a TypeError. */
  lemma {:induction false} CorrelateRaises(res: Resource, fs: seq<Finding>)
    ensures Correlate(res, fs).Raise? <==>
      (res.attributes.port.Some? && PortTruthy(res.attributes.port.value) &&
       exists k :: 0 <= k < |AsItems(res.attributes.port.value)| && AsItems(res.attributes.port.value)[k].ItemOther?)
  {
    if res.attributes.port.Some? && PortTruthy(res.attributes.port.value) {
      var items := AsItems(res.attributes.port.value);
      ScanItemsOk(items, true);
      if Correlate(res, fs).Raise? {
        var k :| 0 <= k < |items| && !Passes(items[k], true);
        assert items[k].ItemOther?;
      }
    }
  }

  /**
   * Correlating twice changes nothing more when the findings carry a `risk`:
   * the level is read from `risk`, which correlation never rewrites, so a
   * repeated run does not compound the escalation.
   */
  lemma {:induction false} CorrelateOneIdempotent(ctx: Context, f: Finding)
    requires f.risk.Some?
    ensures CorrelateOne(ctx, CorrelateOne(ctx, f)) == CorrelateOne(ctx, f)
  {
  }

  lemma {:induction false} CorrelateIdempotent(res: Resource, fs: seq<Finding>)
    requires Correlate(res, fs).Ok?
    requires forall i :: 0 <= i < |fs| ==> fs[i].risk.Some?
    ensures Correlate(res, Correlate(res, fs).value) == Correlate(res, fs)
  {
    var ctx := ContextOf(res.attributes).value;
    var once := CorrelateAll(ctx, fs);
    forall i | 0 <= i < |fs|
      ensures CorrelateAll(ctx, once)[i] == once[i]
    {
      CorrelateOneIdempotent(ctx, fs[i]);
    }
    assert CorrelateAll(ctx, once) == once;
  }

  /**
   * Without a `risk` key the level comes from `risk_level`, which correlation
   * rewrites: correlating a LOW finding of a public resource twice lifts it
   * two steps.
   */
  lemma {:induction false} LevelOnlyFindingCompounds(ctx: Context, f: Finding)
    requires ctx.public && f.risk.None? && f.riskLevel == Some("LOW")
    ensures CorrelateOne(ctx, f).riskLevel == Some("MEDIUM")
    ensures CorrelateOne(ctx, CorrelateOne(ctx, f)).riskLevel == Some("HIGH")
  {
    UpperOfUpper("LOW");
    UpperOfUpper("MEDIUM");
    EscalatedStep("LOW", ctx);
    EscalatedStep("MEDIUM", ctx);
  }
}
