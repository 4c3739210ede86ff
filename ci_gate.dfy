/**
 * The CI runner's verdict: the worst severity among a scan's results, the
 * exit code that blocks the build at a configured severity, and the terminal
 * colouring of a severity.
 */
module CiGate {
  import opened Wrappers
  import opened Strings
  import opened Levels

  /** One entry of `results_json` as the runner reads it: `risk_score` is `None` when absent. */
  datatype ResultEntry = ResultEntry(resourceId: Option<string>, riskScore: Option<string>)

  /** The `results_json` field of a polled scan record: absent, present but null, or a list of entries. */
  datatype ResultsField = ResultsAbsent | ResultsNull | ResultsList(entries: seq<ResultEntry>)

  /** The polled scan record, as far as the runner reads it. */
  datatype ScanData = ScanData(results: ResultsField)

  /** `SEVERITY_ORDER.get(sev, 1)` */
  function RankOf(sev: string): (r: nat)
    ensures 1 <= r <= 4
  {
    RankOr(sev, 1)
  }

  /** `r.get("risk_score", "LOW").upper()` */
  function EntrySeverity(r: ResultEntry): string {
    Upper(r.riskScore.GetOr("LOW"))
  }

  /** The fold of the loop: a later entry replaces `worst` only when it ranks strictly higher. */
  function WorstFrom(worst: string, rs: seq<ResultEntry>): string
    decreases |rs|
  {
    if rs == [] then worst
    else WorstFrom(if RankOf(EntrySeverity(rs[0])) > RankOf(worst) then EntrySeverity(rs[0]) else worst, rs[1..])
  }

  /** `summarize_results(data)`: an absent or null `results_json` is falsy and gives LOW. */
  function Summarize(data: ScanData): string {
    match data.results
    case ResultsList(rs) => WorstFrom("LOW", rs)
    case _ => "LOW"
  }

  /** `summarize_results`: the loop over the results, printing aside. */
  method SummarizeResults(data: ScanData) returns (worst: string)
    ensures worst == Summarize(data)
  {
    worst := "LOW";
    if !data.results.ResultsList? || data.results.entries == [] {
      return;
    }
    var rest := data.results.entries;
    while rest != []
      invariant WorstFrom(worst, rest) == Summarize(data)
      decreases |rest|
    {
      var sev := EntrySeverity(rest[0]);
      if RankOf(sev) > RankOf(worst) {
        worst := sev;
      }
      rest := rest[1..];
    }
  }

  /** The highest rank among the entries, and 1 for none. */
  function MaxRank(rs: seq<ResultEntry>): (m: nat)
    ensures 1 <= m <= 4
    ensures forall i :: 0 <= i < |rs| ==> RankOf(EntrySeverity(rs[i])) <= m
    ensures m == 1 || exists i :: 0 <= i < |rs| && RankOf(EntrySeverity(rs[i])) == m
  {
    if rs == [] then 1
    else
      var rest := MaxRank(rs[1..]);
      assert forall i :: 0 < i < |rs| ==> rs[i] == rs[1..][i - 1];
      if RankOf(EntrySeverity(rs[0])) > rest then RankOf(EntrySeverity(rs[0])) else rest
  }

  /**
   * The fold from a known severity ends on a known severity, the one whose
   * rank is the larger of the start's and the entries' highest.
   */
  lemma {:induction false} WorstFromIsMax(worst: Severity, rs: seq<ResultEntry>)
    ensures Parse(WorstFrom(Name(worst), rs)).Some?
    ensures RankOf(WorstFrom(Name(worst), rs)) == if Rank(worst) >= MaxRank(rs) then Rank(worst) else MaxRank(rs)
    decreases |rs|
  {
    ParseName(worst);
    if rs != [] {
      var sev := EntrySeverity(rs[0]);
      var next := if RankOf(sev) > RankOf(Name(worst)) then sev else Name(worst);
      assert Parse(next).Some? && Name(Parse(next).value) == next;
      WorstFromIsMax(Parse(next).value, rs[1..]);
    }
  }

  /**
   * The summary is always one of the four severities, and it is the
   * severity of the highest-ranked entry; LOW when there are no results or
   * none ranks above LOW.
   */
  lemma {:induction false} SummaryIsWorst(data: ScanData)
    ensures Parse(Summarize(data)).Some?
    ensures !data.results.ResultsList? || data.results.entries == [] ==> Summarize(data) == "LOW"
    ensures data.results.ResultsList? ==> RankOf(Summarize(data)) == MaxRank(data.results.entries)
    ensures data.results.ResultsList? ==>
      forall i :: 0 <= i < |data.results.entries| ==> RankOf(EntrySeverity(data.results.entries[i])) <= RankOf(Summarize(data))
  {
    ParseName(LOW);
    if data.results.ResultsList? {
      WorstFromIsMax(LOW, data.results.entries);
    }
  }

  /** The summary depends only on which severities occur, not on the order of the results. */
  lemma {:induction false} SummaryIgnoresOrder(a: seq<ResultEntry>, b: seq<ResultEntry>)
    requires multiset(a) == multiset(b)
    ensures Summarize(ScanData(ResultsList(a))) == Summarize(ScanData(ResultsList(b)))
  {
    SummaryIsWorst(ScanData(ResultsList(a)));
    SummaryIsWorst(ScanData(ResultsList(b)));
    MaxRankBound(a, b);
    MaxRankBound(b, a);
    var sa, sb := Summarize(ScanData(ResultsList(a))), Summarize(ScanData(ResultsList(b)));
    RankInjective(Parse(sa).value, Parse(sb).value);
  }

  /** Entries with the same multiset have their highest rank bounded by each other's. */
  lemma {:induction false} MaxRankBound(a: seq<ResultEntry>, b: seq<ResultEntry>)
    requires multiset(a) == multiset(b)
    ensures MaxRank(a) <= MaxRank(b)
  {
    if MaxRank(a) != 1 {
      var i :| 0 <= i < |a| && RankOf(EntrySeverity(a[i])) == MaxRank(a);
      assert a[i] in multiset(b);
      var j :| 0 <= j < |b| && b[j] == a[i];
    }
  }

  /** Results whose severities are all unknown names rank 1 throughout and summarise to LOW. */
  lemma {:induction false} UnknownNeverWins(rs: seq<ResultEntry>)
    requires forall i :: 0 <= i < |rs| ==> Parse(EntrySeverity(rs[i])).None?
    ensures Summarize(ScanData(ResultsList(rs))) == "LOW"
  {
    SummaryIsWorst(ScanData(ResultsList(rs)));
    assert MaxRank(rs) == 1;
    var worst := Parse(Summarize(ScanData(ResultsList(rs)))).value;
    RankInjective(worst, LOW);
  }

  /** `BLOCK_SEVERITY`: the configured value upper-cased, HIGH when unset. */
  function BlockSeverity(setting: Option<string>): (b: string)
    ensures setting.None? ==> b == "HIGH"
    ensures |b| == |setting.GetOr("HIGH")|
    ensures forall i :: 0 <= i < |b| ==> !IsLowerAscii(b[i])
  {
    Upper(setting.GetOr("HIGH"))
  }

  /** The build gate: 2 when the severity reaches the block severity (an unknown one ranks 3), else 0. */
  function GateExit(severity: string, block: string): (code: int)
    ensures code == 0 || code == 2
    ensures code == 2 <==> RankOf(severity) >= RankOr(block, 3)
  {
    if RankOf(severity) >= RankOr(block, 3) then 2 else 0
  }

  /**
   * The runner's exit code: 1 when submitting or polling raised (`None`), and
   * 1 when `results_json` is present but null, because `generate_report`
   * then iterates `None` and raises TypeError; otherwise the gate on the
   * summary.
   */
  function ExitCode(data: Option<ScanData>, setting: Option<string>): (code: int)
    ensures data.None? ==> code == 1
    ensures data.Some? && data.value.results.ResultsNull? ==> code == 1
    ensures data.Some? && !data.value.results.ResultsNull? ==> code == 0 || code == 2
  {
    match data
    case None => 1
    case Some(d) => if d.results.ResultsNull? then 1 else GateExit(Summarize(d), BlockSeverity(setting))
  }

  /**
   * The scan record as the status endpoint serves it: `results_json` is the
   * text stored in the table (`'[]'` at submission, `json.dumps` of the
   * results on completion), or `None` when absent.
   */
  datatype ServedScan = ServedScan(resultsJson: Option<string>)

  /**
   * `summarize_results` on the served record as written: an empty text is
   * falsy and gives LOW; any other text is iterated by character, and the
   * first character has no `.get`.
   */
  function SummarizeServed(data: ServedScan): (r: Result<string>)
    ensures r.Ok? <==> data.resultsJson.None? || data.resultsJson.value == ""
    ensures r.Ok? ==> r.value == "LOW"
    ensures r.Raise? ==> r.error == AttributeError
  {
    match data.resultsJson
    case None => Ok("LOW")
    case Some(text) => if text == "" then Ok("LOW") else Raise(AttributeError)
  }

  /** The runner's exit code on the served record: the main block's `except` turns the summary's exception into 1. */
  function ServedExitCode(data: Option<ServedScan>, setting: Option<string>): (code: int)
    ensures data.None? ==> code == 1
    ensures data.Some? && SummarizeServed(data.value).Raise? ==> code == 1
    ensures data.Some? && SummarizeServed(data.value).Ok? ==> code == GateExit("LOW", BlockSeverity(setting))
  {
    match data
    case None => 1
    case Some(d) =>
      match SummarizeServed(d)
      case Raise(_) => 1
      case Ok(worst) => GateExit(worst, BlockSeverity(setting))
  }

  /**
   * As written, every stored result list makes the runner exit 1, the empty
   * list `"[]"` included: the gate's 0 and 2 are never reached on a scan whose
   * results were written.
   */
  lemma {:induction false} StoredResultsExitOne(text: string, setting: Option<string>)
    requires text != ""
    ensures ServedExitCode(Some(ServedScan(Some(text))), setting) == 1
  {
  }

  /** The served `"[]"` of a scan with no results exits 1, where its decoded list passes the default gate. */
  lemma {:induction false} ServedEmptyListContrast()
    ensures ServedExitCode(Some(ServedScan(Some("[]"))), None) == 1
    ensures ExitCode(Some(ScanData(ResultsList([]))), None) == 0
  {
    ParseName(HIGH);
    UpperOfUpper("HIGH");
  }

  /**
   * With the results decoded before the summary, a polled scan whose
   * `results_json` is absent or a list reaches the gate: the exit code is 0
   * or 2, and 2 exactly at the block severity. A null `results_json` still
   * exits 1, from the report.
   */
  lemma {:induction false} DecodedResultsReachGate(data: ScanData, setting: Option<string>)
    ensures data.results.ResultsNull? ==> ExitCode(Some(data), setting) == 1
    ensures !data.results.ResultsNull? ==> ExitCode(Some(data), setting) == 0 || ExitCode(Some(data), setting) == 2
    ensures !data.results.ResultsNull? ==>
      (ExitCode(Some(data), setting) == 2 <==> RankOf(Summarize(data)) >= RankOr(BlockSeverity(setting), 3))
  {
  }

  /** With no setting the build fails exactly on a HIGH or CRITICAL result. */
  lemma {:induction false} DefaultBlocksHigh(data: ScanData)
    ensures ExitCode(Some(data), None) == 2 <==> RankOf(Summarize(data)) >= 3
  {
    ParseName(HIGH);
  }

  /** A block severity that is not a severity name behaves like HIGH. */
  lemma {:induction false} UnknownBlockActsAsHigh(severity: string, block: string)
    requires Parse(block).None?
    ensures GateExit(severity, block) == GateExit(severity, "HIGH")
  {
  }

  /** A worse summary never turns a failing build into a passing one. */
  lemma {:induction false} GateMonotone(s1: string, s2: string, block: string)
    requires RankOf(s1) <= RankOf(s2)
    ensures GateExit(s1, block) == 2 ==> GateExit(s2, block) == 2
  {
  }

  const Escape: char := '\U{1B}'

  /** The `colors` table; `None` for a name outside it. */
  function ColorCode(sev: string): (r: Option<string>)
    ensures r.Some? <==> Parse(sev).Some? || sev == "END"
    ensures r.Some? ==> |r.value| >= 4 && r.value[0] == Escape && r.value[1] == '[' && r.value[|r.value| - 1] == 'm'
  {
    if sev == "LOW" then Some([Escape] + "[92m")
    else if sev == "MEDIUM" then Some([Escape] + "[93m")
    else if sev == "HIGH" then Some([Escape] + "[91m")
    else if sev == "CRITICAL" then Some([Escape] + "[95m")
    else if sev == "END" then Some([Escape] + "[0m")
    else None
  }

  const EndCode: string := [Escape] + "[0m"

  /** `color(text, sev)`: the severity's code, the text, the reset code. */
  function Color(text: string, sev: string): (c: string)
    ensures |c| == |ColorCode(sev).GetOr("")| + |text| + |EndCode|
    ensures c[|ColorCode(sev).GetOr("")|..|c| - |EndCode|] == text
    ensures c[|c| - |EndCode|..] == EndCode
  {
    ColorCode(sev).GetOr("") + text + EndCode
  }

  /** The coloured text ends in the reset code, starts with the severity's code, and holds the text in between. */
  lemma {:induction false} ColorFrames(text: string, sev: string)
    ensures var c := Color(text, sev); var p := ColorCode(sev).GetOr("");
      |c| == |p| + |text| + |EndCode| &&
      c[..|p|] == p && c[|p|..|p| + |text|] == text && c[|p| + |text|..] == EndCode
    ensures ColorCode(sev).None? ==> Color(text, sev) == text + EndCode
  {
  }

  /** Different known severities get different codes, so the colour tells the severity. */
  lemma {:induction false} ColorCodesDistinct(a: Severity, b: Severity)
    requires a != b
    ensures ColorCode(Name(a)).Some? && ColorCode(Name(b)).Some? && ColorCode(Name(a)) != ColorCode(Name(b))
  {
    var ca, cb := ColorCode(Name(a)).value, ColorCode(Name(b)).value;
    assert ca[3] != cb[3];
  }
}
