/**
 * The confidence-weighted `calculate_risk`: every finding's severity weight is
 * scaled by the confidence of its feed, the weighted mean is taken over the
 * total confidence (floored at 1.0), and the mean is mapped onto LOW..CRITICAL
 * by the thresholds 2, 5 and 8. Confidences are decimals with one place and
 * are given in tenths, so the mean is `WeightedSum / max(TotalWeight, 10)`.
 */
module WeightedScoring {
  import opened Wrappers
  import opened Strings
  import opened Levels
  import opened Resources
  import Multisets

  /** `SEVERITY_WEIGHTS.get(lvl, 1)`: an unknown name weighs as much as LOW. */
  function WeightOf(name: string): (w: nat)
    ensures 1 <= w <= 10
  {
    match Parse(name)
    case Some(s) => Weight(s)
    case None => 1
  }

  /** `FEED_CONFIDENCE.get(feed, 0.5)`, in tenths. */
  function Confidence(feed: string): (c: nat)
    ensures 5 <= c <= 9
  {
    if feed == "otx" then 9
    else if feed == "abuseipdb" then 8
    else if feed == "shodan" then 7
    else if feed == "greynoise" then 6
    else 5
  }

  /** The upper-cased level the scorer reads from a finding. */
  function LevelName(choice: LevelChoice, f: Finding): string {
    Upper(ChosenLevel(choice, f))
  }

  /** The confidence of a finding's lower-cased feed (an absent feed is `""`). */
  function FindingConfidence(f: Finding): (c: nat)
    ensures 5 <= c <= 9
  {
    Confidence(Lower(f.feed.GetOr("")))
  }

  /** What one finding adds to the weighted sum, in tenths. */
  function Contribution(choice: LevelChoice, f: Finding): (v: nat)
    ensures FindingConfidence(f) <= v <= 10 * FindingConfidence(f)
  {
    var w, c := WeightOf(LevelName(choice, f)), FindingConfidence(f);
    assert c <= w * c <= 10 * c;
    w * c
  }

  /** `weighted_sum` after the loop, in tenths. */
  function WeightedSum(choice: LevelChoice, fs: seq<Finding>): (s: nat)
    ensures TotalWeight(fs) <= s <= 10 * TotalWeight(fs)
  {
    if fs == [] then 0 else Contribution(choice, fs[0]) + WeightedSum(choice, fs[1..])
  }

  /** `total_weight` after the loop, in tenths. */
  function TotalWeight(fs: seq<Finding>): (t: nat)
    ensures 5 * |fs| <= t <= 9 * |fs|
  {
    if fs == [] then 0 else FindingConfidence(fs[0]) + TotalWeight(fs[1..])
  }

  /** `max(total_weight, 1)`, in tenths. */
  function Denominator(total: nat): (d: nat)
    ensures d >= 10 && d >= total
  {
    if total < 10 then 10 else total
  }

  /** The threshold chain on the mean `sum / Denominator(total)`. */
  function Classify(sum: nat, total: nat): (r: Severity)
    ensures r == CRITICAL <==> sum >= 8 * Denominator(total)
    ensures r == HIGH <==> 5 * Denominator(total) <= sum < 8 * Denominator(total)
    ensures r == MEDIUM <==> 2 * Denominator(total) <= sum < 5 * Denominator(total)
    ensures r == LOW <==> sum < 2 * Denominator(total)
  {
    var d := Denominator(total);
    if sum >= 8 * d then CRITICAL
    else if sum >= 5 * d then HIGH
    else if sum >= 2 * d then MEDIUM
    else LOW
  }

  /** The severity `calculate_risk` returns (as its name). */
  function Score(choice: LevelChoice, fs: seq<Finding>): Severity {
    if fs == [] then LOW else Classify(WeightedSum(choice, fs), TotalWeight(fs))
  }

  /** `calculate_risk`: the two accumulators, then the threshold chain. */
  method CalculateRisk(choice: LevelChoice, fs: seq<Finding>) returns (risk: Severity)
    ensures risk == Score(choice, fs)
  {
    if fs == [] {
      return LOW;
    }
    var weightedSum, totalWeight := Accumulate(choice, fs);
    var denominator := if totalWeight < 10 then 10 else totalWeight;
    if weightedSum >= 8 * denominator {
      risk := CRITICAL;
    } else if weightedSum >= 5 * denominator {
      risk := HIGH;
    } else if weightedSum >= 2 * denominator {
      risk := MEDIUM;
    } else {
      risk := LOW;
    }
    assert denominator == Denominator(totalWeight);
  }

  /** The loop of `calculate_risk`: both accumulators over all findings. */
  method Accumulate(choice: LevelChoice, fs: seq<Finding>) returns (weightedSum: nat, totalWeight: nat)
    ensures weightedSum == WeightedSum(choice, fs)
    ensures totalWeight == TotalWeight(fs)
  {
    weightedSum, totalWeight := 0, 0;
    var rest := fs;
    while rest != []
      invariant weightedSum + WeightedSum(choice, rest) == WeightedSum(choice, fs)
      invariant totalWeight + TotalWeight(rest) == TotalWeight(fs)
      decreases |rest|
    {
      var f := rest[0];
      var lvl := Upper(ChosenLevel(choice, f));
      var confidence := Confidence(Lower(f.feed.GetOr("")));
      assert WeightOf(lvl) * confidence == Contribution(choice, f);
      weightedSum := weightedSum + WeightOf(lvl) * confidence;
      totalWeight := totalWeight + confidence;
      rest := rest[1..];
    }
  }

  /** A larger weighted sum over the same total never classifies lower. */
  lemma {:induction false} ClassifyMonotone(s1: nat, s2: nat, total: nat)
    requires s1 <= s2
    ensures Rank(Classify(s1, total)) <= Rank(Classify(s2, total))
  {
  }

  /** Findings that are all LOW (or unknown) average to at most 1: the result is LOW. */
  lemma {:induction false} AllLowIsLow(choice: LevelChoice, fs: seq<Finding>)
    requires forall i :: 0 <= i < |fs| ==> WeightOf(LevelName(choice, fs[i])) == 1
    ensures WeightedSum(choice, fs) == TotalWeight(fs)
    ensures Score(choice, fs) == LOW
  {
    if fs != [] {
      AllLowIsLow(choice, fs[1..]);
    }
  }

  /** Findings that are all CRITICAL give CRITICAL exactly when their total confidence reaches 0.8. */
  lemma {:induction false} AllCritical(choice: LevelChoice, fs: seq<Finding>)
    requires fs != []
    requires forall i :: 0 <= i < |fs| ==> LevelName(choice, fs[i]) == "CRITICAL"
    ensures WeightedSum(choice, fs) == 10 * TotalWeight(fs)
    ensures Score(choice, fs) == CRITICAL <==> TotalWeight(fs) >= 8
    ensures Rank(Score(choice, fs)) >= Rank(HIGH)
  {
    AllCriticalSum(choice, fs);
  }

  lemma {:induction false} AllCriticalSum(choice: LevelChoice, fs: seq<Finding>)
    requires forall i :: 0 <= i < |fs| ==> LevelName(choice, fs[i]) == "CRITICAL"
    ensures WeightedSum(choice, fs) == 10 * TotalWeight(fs)
  {
    if fs != [] {
      assert forall i :: 0 <= i < |fs| - 1 ==> fs[1..][i] == fs[i + 1];
      AllCriticalSum(choice, fs[1..]);
      CriticalContribution(choice, fs[0]);
    }
  }

  /** A CRITICAL finding adds ten times its confidence. */
  lemma {:induction false} CriticalContribution(choice: LevelChoice, f: Finding)
    requires LevelName(choice, f) == "CRITICAL"
    ensures Contribution(choice, f) == 10 * FindingConfidence(f)
  {
    assert WeightOf(LevelName(choice, f)) == 10;
  }

  /** Because the denominator never drops below 1.0, one CRITICAL Shodan finding alone only reaches HIGH. */
  lemma {:induction false} LoneShodanCriticalIsHigh(choice: LevelChoice, f: Finding)
    requires LevelName(choice, f) == "CRITICAL" && f.feed == Some("shodan")
    ensures Score(choice, [f]) == HIGH
  {
    assert Lower("shodan") == "shodan";
    TotalWeightSingle(f);
  }

  /** One HIGH Shodan finding alone averages 4.2: MEDIUM. */
  lemma {:induction false} LoneShodanHighIsMedium(choice: LevelChoice, f: Finding)
    requires LevelName(choice, f) == "HIGH" && f.feed == Some("shodan")
    ensures WeightedSum(choice, [f]) == 42
    ensures Score(choice, [f]) == MEDIUM
  {
    assert Lower("shodan") == "shodan";
    assert FindingConfidence(f) == 7 && WeightOf(LevelName(choice, f)) == 6;
    TotalWeightSingle(f);
  }

  lemma {:induction false} ContributionMonotone(choice: LevelChoice, fa: Finding, fb: Finding)
    requires FindingConfidence(fa) == FindingConfidence(fb)
    requires WeightOf(LevelName(choice, fa)) <= WeightOf(LevelName(choice, fb))
    ensures Contribution(choice, fa) <= Contribution(choice, fb)
  {
    MulMonotone(WeightOf(LevelName(choice, fa)), WeightOf(LevelName(choice, fb)), FindingConfidence(fa));
  }

  lemma {:induction false} MulMonotone(x: nat, y: nat, c: nat)
    requires x <= y
    ensures x * c <= y * c
  {
  }

  /** Raising the level of findings one by one, feeds unchanged, never lowers the weighted sum. */
  lemma {:induction false} WeightedSumMonotone(choice: LevelChoice, a: seq<Finding>, b: seq<Finding>)
    requires |a| == |b|
    requires forall i :: 0 <= i < |a| ==> FindingConfidence(a[i]) == FindingConfidence(b[i])
    requires forall i :: 0 <= i < |a| ==> WeightOf(LevelName(choice, a[i])) <= WeightOf(LevelName(choice, b[i]))
    ensures TotalWeight(a) == TotalWeight(b)
    ensures WeightedSum(choice, a) <= WeightedSum(choice, b)
  {
    if a != [] {
      ContributionMonotone(choice, a[0], b[0]);
      var a', b' := a[1..], b[1..];
      forall i | 0 <= i < |a'|
        ensures FindingConfidence(a'[i]) == FindingConfidence(b'[i])
        ensures WeightOf(LevelName(choice, a'[i])) <= WeightOf(LevelName(choice, b'[i]))
      {
        assert a'[i] == a[i + 1] && b'[i] == b[i + 1];
      }
      WeightedSumMonotone(choice, a', b');
    }
  }

  /** Raising the level of findings, feeds unchanged, never lowers the aggregate. */
  lemma {:induction false} ScoreMonotone(choice: LevelChoice, a: seq<Finding>, b: seq<Finding>)
    requires |a| == |b|
    requires forall i :: 0 <= i < |a| ==> FindingConfidence(a[i]) == FindingConfidence(b[i])
    requires forall i :: 0 <= i < |a| ==> WeightOf(LevelName(choice, a[i])) <= WeightOf(LevelName(choice, b[i]))
    ensures Rank(Score(choice, a)) <= Rank(Score(choice, b))
  {
    WeightedSumMonotone(choice, a, b);
    if a != [] {
      ClassifyMonotone(WeightedSum(choice, a), WeightedSum(choice, b), TotalWeight(a));
    }
  }

  lemma {:induction false} WeightedSumConcat(choice: LevelChoice, a: seq<Finding>, b: seq<Finding>)
    ensures WeightedSum(choice, a + b) == WeightedSum(choice, a) + WeightedSum(choice, b)
  {
    if a == [] {
      assert a + b == b;
    } else {
      assert (a + b)[1..] == a[1..] + b;
      WeightedSumConcat(choice, a[1..], b);
    }
  }

  lemma {:induction false} TotalWeightConcat(a: seq<Finding>, b: seq<Finding>)
    ensures TotalWeight(a + b) == TotalWeight(a) + TotalWeight(b)
  {
    if a == [] {
      assert a + b == b;
    } else {
      assert (a + b)[1..] == a[1..] + b;
      TotalWeightConcat(a[1..], b);
    }
  }

  /** Taking one finding out of the middle removes exactly its share from the weighted sum. */
  lemma {:induction false} WeightedSumRemove(choice: LevelChoice, b: seq<Finding>, k: nat)
    requires k < |b|
    ensures WeightedSum(choice, b) == WeightedSum(choice, b[..k] + b[k + 1..]) + Contribution(choice, b[k])
  {
    var x := b[k];
    assert b == b[..k] + [x] + b[k + 1..];
    WeightedSumConcat(choice, b[..k] + [x], b[k + 1..]);
    WeightedSumConcat(choice, b[..k], [x]);
    WeightedSumConcat(choice, b[..k], b[k + 1..]);
    assert [x][1..] == [];
  }

  /** Taking one finding out of the middle removes exactly its confidence from the total. */
  lemma {:induction false} TotalWeightRemove(b: seq<Finding>, k: nat)
    requires k < |b|
    ensures TotalWeight(b) == TotalWeight(b[..k] + b[k + 1..]) + FindingConfidence(b[k])
  {
    var p, x, q := b[..k], b[k], b[k + 1..];
    assert p + [x] == b[..k + 1];
    assert b[..k + 1] + q == b;
    TotalWeightConcat(b[..k + 1], q);
    TotalWeightConcat(p, [x]);
    TotalWeightConcat(p, q);
    TotalWeightSingle(x);
  }

  lemma {:induction false} TotalWeightSingle(x: Finding)
    ensures TotalWeight([x]) == FindingConfidence(x)
    ensures forall choice :: WeightedSum(choice, [x]) == Contribution(choice, x)
  {
    assert [x][1..] == [];
  }

  /** The weighted sum depends on the findings only as a multiset. */
  lemma {:induction false} WeightedSumPermutation(choice: LevelChoice, a: seq<Finding>, b: seq<Finding>)
    requires multiset(a) == multiset(b)
    ensures WeightedSum(choice, a) == WeightedSum(choice, b)
    decreases |a|
  {
    if a == [] {
      assert |multiset(b)| == 0;
    } else {
      var k := Multisets.PermutationSplit(a, b);
      WeightedSumPermutation(choice, a[1..], b[..k] + b[k + 1..]);
      WeightedSumRemove(choice, b, k);
    }
  }

  /** The total confidence depends on the findings only as a multiset. */
  lemma {:induction false} TotalWeightPermutation(a: seq<Finding>, b: seq<Finding>)
    requires multiset(a) == multiset(b)
    ensures TotalWeight(a) == TotalWeight(b)
    decreases |a|
  {
    if a == [] {
      assert |multiset(b)| == 0;
    } else {
      var k := Multisets.PermutationSplit(a, b);
      TotalWeightPermutation(a[1..], b[..k] + b[k + 1..]);
      TotalWeightRemove(b, k);
    }
  }

  /** The aggregate does not depend on the order of the findings. */
  lemma {:induction false} ScorePermutation(choice: LevelChoice, a: seq<Finding>, b: seq<Finding>)
    requires multiset(a) == multiset(b)
    ensures Score(choice, a) == Score(choice, b)
  {
    WeightedSumPermutation(choice, a, b);
    TotalWeightPermutation(a, b);
    if a == [] {
      assert |multiset(b)| == 0;
    } else {
      assert |multiset(b)| == |b|;
      assert |multiset(a)| == |a|;
    }
  }
}
