/**
 * The unweighted `calculate_risk` of the earlier scorer versions: the severity
 * weights of all findings are summed (an unknown name weighs 0) and the total
 * is mapped onto LOW..CRITICAL by the thresholds 3, 6 and 10. The two versions
 * differ only in which key they read first, with `or`: `risk_level` first, or
 * `risk` first.
 */
module FlatScoring {
  import opened Wrappers
  import opened Strings
  import opened Levels
  import opened Resources

  /** `SEVERITY_WEIGHTS.get(lvl, 0)` */
  function WeightOf(name: string): (w: nat)
    ensures w <= 10
    ensures w == 0 <==> Parse(name).None?
  {
    match Parse(name)
    case Some(s) => Weight(s)
    case None => 0
  }

  function FindingWeight(choice: LevelChoice, f: Finding): nat {
    WeightOf(Upper(ChosenLevel(choice, f)))
  }

  /** `total_score` after the loop. */
  function Total(choice: LevelChoice, fs: seq<Finding>): (t: nat)
    ensures t <= 10 * |fs|
  {
    if fs == [] then 0 else FindingWeight(choice, fs[0]) + Total(choice, fs[1..])
  }

  /** The threshold chain on the total. */
  function Classify(total: nat): (r: Severity)
    ensures r == CRITICAL <==> total >= 10
    ensures r == HIGH <==> 6 <= total < 10
    ensures r == MEDIUM <==> 3 <= total < 6
    ensures r == LOW <==> total < 3
  {
    if total >= 10 then CRITICAL
    else if total >= 6 then HIGH
    else if total >= 3 then MEDIUM
    else LOW
  }

  function Score(choice: LevelChoice, fs: seq<Finding>): Severity {
    if fs == [] then LOW else Classify(Total(choice, fs))
  }

  /** `calculate_risk`: the `total_score` loop, then the threshold chain. */
  method CalculateRisk(choice: LevelChoice, fs: seq<Finding>) returns (risk: Severity)
    ensures risk == Score(choice, fs)
  {
    if fs == [] {
      return LOW;
    }
    var totalScore := 0;
    var rest := fs;
    while rest != []
      invariant totalScore + Total(choice, rest) == Total(choice, fs)
      decreases |rest|
    {
      var lvl := ChosenLevel(choice, rest[0]);
      lvl := Upper(lvl);
      totalScore := totalScore + WeightOf(lvl);
      rest := rest[1..];
    }
    if totalScore >= 10 {
      risk := CRITICAL;
    } else if totalScore >= 6 {
      risk := HIGH;
    } else if totalScore >= 3 {
      risk := MEDIUM;
    } else {
      risk := LOW;
    }
  }

  /** `calculate_risk` of the scorer that reads a truthy `risk_level` first, else `risk`, else LOW. */
  method CalculateRiskLevelFirst(fs: seq<Finding>) returns (risk: Severity)
    ensures risk == Score(LevelTruthyFirst, fs)
  {
    risk := CalculateRisk(LevelTruthyFirst, fs);
  }

  /** `calculate_risk` of the scorer that reads a truthy `risk` first, else `risk_level`, else LOW. */
  method CalculateRiskRiskFirst(fs: seq<Finding>) returns (risk: Severity)
    ensures risk == Score(RiskTruthyFirst, fs)
  {
    risk := CalculateRisk(RiskTruthyFirst, fs);
  }

  lemma {:induction false} ClassifyMonotone(t1: nat, t2: nat)
    requires t1 <= t2
    ensures Rank(Classify(t1)) <= Rank(Classify(t2))
  {
  }

  lemma {:induction false} TotalAppend(choice: LevelChoice, fs: seq<Finding>, f: Finding)
    ensures Total(choice, fs + [f]) == Total(choice, fs) + FindingWeight(choice, f)
  {
    if fs == [] {
      assert ([f])[1..] == [];
    } else {
      assert (fs + [f])[1..] == fs[1..] + [f];
      TotalAppend(choice, fs[1..], f);
    }
  }

  /** One more finding never lowers the aggregate. */
  lemma {:induction false} AddingNeverLowers(choice: LevelChoice, fs: seq<Finding>, f: Finding)
    ensures Rank(Score(choice, fs)) <= Rank(Score(choice, fs + [f]))
  {
    TotalAppend(choice, fs, f);
    ClassifyMonotone(Total(choice, fs), Total(choice, fs + [f]));
  }

  /** Raising findings' levels one by one never lowers the total. */
  lemma {:induction false} TotalMonotone(choice: LevelChoice, a: seq<Finding>, b: seq<Finding>)
    requires |a| == |b|
    requires forall i :: 0 <= i < |a| ==> FindingWeight(choice, a[i]) <= FindingWeight(choice, b[i])
    ensures Total(choice, a) <= Total(choice, b)
  {
    if a != [] {
      assert forall i :: 0 <= i < |a| - 1 ==> a[1..][i] == a[i + 1] && b[1..][i] == b[i + 1];
      TotalMonotone(choice, a[1..], b[1..]);
    }
  }

  /** Raising findings' levels never lowers the aggregate. */
  lemma {:induction false} ScoreMonotone(choice: LevelChoice, a: seq<Finding>, b: seq<Finding>)
    requires |a| == |b|
    requires forall i :: 0 <= i < |a| ==> FindingWeight(choice, a[i]) <= FindingWeight(choice, b[i])
    ensures Rank(Score(choice, a)) <= Rank(Score(choice, b))
  {
    TotalMonotone(choice, a, b);
    ClassifyMonotone(Total(choice, a), Total(choice, b));
  }

  /** Every finding's weight is part of the total. */
  lemma {:induction false} TotalCovers(choice: LevelChoice, fs: seq<Finding>, i: nat)
    requires i < |fs|
    ensures Total(choice, fs) >= FindingWeight(choice, fs[i])
  {
    if i > 0 {
      assert fs[1..][i - 1] == fs[i];
      TotalCovers(choice, fs[1..], i - 1);
    }
  }

  /** A single CRITICAL finding reaches the CRITICAL threshold by itself. */
  lemma {:induction false} AnyCriticalIsCritical(choice: LevelChoice, fs: seq<Finding>, i: nat)
    requires i < |fs| && Upper(ChosenLevel(choice, fs[i])) == "CRITICAL"
    ensures Score(choice, fs) == CRITICAL
  {
    TotalCovers(choice, fs, i);
  }

  /** Three LOW findings together weigh 3: MEDIUM, while two are still LOW. */
  lemma {:induction false} ThreeLowsAreMedium(choice: LevelChoice, f1: Finding, f2: Finding, f3: Finding)
    requires Upper(ChosenLevel(choice, f1)) == "LOW"
    requires Upper(ChosenLevel(choice, f2)) == "LOW"
    requires Upper(ChosenLevel(choice, f3)) == "LOW"
    ensures Score(choice, [f1, f2]) == LOW
    ensures Score(choice, [f1, f2, f3]) == MEDIUM
  {
    assert WeightOf("LOW") == 1;
    assert [f2][1..] == [] && [f3][1..] == [];
    assert Total(choice, [f2]) == 1 && Total(choice, [f3]) == 1;
    assert [f1, f2][1..] == [f2] && [f2, f3][1..] == [f3];
    assert Total(choice, [f1, f2]) == 2 && Total(choice, [f2, f3]) == 2;
    assert [f1, f2, f3][1..] == [f2, f3];
    assert Total(choice, [f1, f2, f3]) == 3;
  }

  /** A finding whose chosen level is unknown adds nothing. */
  lemma {:induction false} UnknownLevelsWeighNothing(choice: LevelChoice, fs: seq<Finding>)
    requires forall i :: 0 <= i < |fs| ==> Parse(Upper(ChosenLevel(choice, fs[i]))).None?
    ensures Total(choice, fs) == 0
    ensures Score(choice, fs) == LOW
  {
    if fs != [] {
      assert forall i :: 0 <= i < |fs| - 1 ==> fs[1..][i] == fs[i + 1];
      UnknownLevelsWeighNothing(choice, fs[1..]);
    }
  }

  /**
   * An escalated finding keeps its raw `risk` and carries the escalated
   * `risk_level`: reading `risk_level` first scores the escalation, reading
   * `risk` first ignores it.
   */
  lemma {:induction false} EscalationSeenOnlyLevelFirst(f: Finding)
    requires f.risk == Some("LOW") && f.riskLevel == Some("CRITICAL")
    ensures Score(LevelTruthyFirst, [f]) == CRITICAL
    ensures Score(RiskTruthyFirst, [f]) == LOW
  {
    ParseName(LOW);
    ParseName(CRITICAL);
    assert [f][1..] == [];
  }

  /**
   * Reading a truthy `risk` first, the `risk_level` of findings that have one
   * plays no part: rewriting every `risk_level` leaves the aggregate unchanged.
   */
  lemma {:induction false} RiskFirstIgnoresLevel(a: seq<Finding>, b: seq<Finding>)
    requires |a| == |b|
    requires forall i :: 0 <= i < |a| ==> Truthy(a[i].risk) && b[i].risk == a[i].risk
    ensures Total(RiskTruthyFirst, a) == Total(RiskTruthyFirst, b)
    ensures Score(RiskTruthyFirst, a) == Score(RiskTruthyFirst, b)
  {
    if a != [] {
      assert forall i :: 0 <= i < |a| - 1 ==> a[1..][i] == a[i + 1] && b[1..][i] == b[i + 1];
      RiskFirstIgnoresLevel(a[1..], b[1..]);
    }
  }
}
