# Threat-aware IaC scan pipeline, modelled in Dafny

This project models the scan pipeline of the threat-aware infrastructure-as-code
scanner. A queued scan record names a Terraform plan kept in object storage. The
worker Lambda works through it in these steps:

- It marks the scan WORKING in the status table.
- It parses the plan into resource descriptors (`parse_iac_plan`).
- For every resource, it collects candidate IPs and hosts and queries the threat
  feeds through the aggregator: AbuseIPDB, GreyNoise, Shodan, then OTX.
- It correlates the findings with the resource's context (`correlate_threats`).
- It scores the correlated findings (`calculate_risk`) and builds one explanation
  record per resource.
- It stores the results under COMPLETED, or marks the scan FAILED with a
  traceback.

The CI runner reads the stored results back. It reduces them to the worst
severity and fails the build (exit 2) when that severity reaches the block
severity. The status endpoint serves the results as the stored JSON text, which
the runner does not decode; the model states both what the runner does with
that text and what it does with the decoded list (see "## Findings").

The repository ships several snapshots of the same library side by side. Each
snapshot becomes a module of its own, so every variant can be compared with its
source one to one:

| module | file | what it is |
|---|---|---|
| `Wrappers`, `Strings`, `Levels`, `Rounding`, `Resources` | wrappers.dfy … resources.dfy | the shared building blocks: `Option`/`Result`; `str.upper()`, `str.lower()`, `str(n)` and `int(s)`; the severity names and their rank and weight tables; Python's half-to-even `round`; the resource and finding dictionaries, with the four ways the variants read a finding's level |
| `Parser` | parser.dfy | `parse_iac_plan` on a decoded JSON document, including the exceptions it raises on shapes it cannot walk and the fallback scan over `aws_`/`azurerm_` keys |
| `AbuseIpDb`, `GreyNoise`, `Shodan`, `Otx` | abuseipdb.dfy … otx.dfy | the four feed adapters; an HTTP reply is a parameter |
| `Aggregator` | aggregator.dfy | `ThreatAggregator.check_resource`; the set iteration order is left open |
| `Escalation` | escalation.dfy | the standalone `escalate_risk(level, factor)` helper |
| `Exposure` | exposure.dfy | the context signals (public, sensitive, exposed ports), the exposure factor and the flags, as the two context-aware engines share them |
| `CorrelationDeployed` | correlation_deployed.dfy | the deployed context-aware engine; port errors are skipped, and the raw `risk` is read first |
| `CorrelationFull` | correlation_full.dfy | the all-in-one engine with its own weighted scorer and `evaluate_resource_risk`; port errors propagate, and a truthy `risk_level` is read first |
| `CorrelationOneStep` | correlation_onestep.dfy | the engine that raises a public resource's findings by one level |
| `CorrelationFilter` | correlation_filter.dfy | the earliest engine, which filters instead of escalating |
| `WeightedScoring` | scoring_weighted.dfy | the deployed confidence-weighted scorer |
| `FlatScoring` | scoring_flat.dfy | the two unweighted scorers; they differ only in which key they read first |
| `Explanation` | explanation.dfy | `build_explanation` |
| `StatusStore` | status_store.dfy | `update_status` over a status table modelled as a class |
| `WorkerDeployed`, `WorkerEarly` | worker_deployed.dfy, worker_early.dfy | `process_scan` and the two versions of the worker `handler` |
| `Multisets` | multisets.dfy | permutation facts and a sequence map, used to show that the candidate and finding order does not matter |
| `Pipeline` | pipeline.dfy | one resource through the deployed chain, end to end |
| `CiGate` | ci_gate.dfy | the CI runner's summary, its gate and its colouring |

## Representation choices

- **Decimals.** Every decimal in the source has one fractional digit, so values
  are kept in tenths:
  - The exposure factor 1.0 + 0.7 + 0.4 + 0.3 becomes 10 + 7 + 4 + 3.
  - The feed confidences 0.9, 0.8, 0.7, 0.6 and 0.5 become 9, 8, 7, 6 and 5.
  - The weighted scorer's test `avg >= T` becomes the cross-multiplied test on
    the exact mean, `sum >= T * max(total, 1.0)`. The program computes the mean
    in floating point instead; the `WeightedScoring.Score` line under "Left out"
    says where the two differ.
- **Rounding.** `round` is Python's round-half-to-even. Its effect on escalation
  is proved once (`Exposure.EscalatedStep`). A public context, or a sensitive one
  with exposed ports, raises a level by exactly one step. A sensitive-only or a
  ports-only context rounds the offset away and leaves the level unchanged.
- **Dictionaries.** Dictionaries are datatypes with one `Option` per key the code
  reads, so an absent key and a present one stay distinct. The four readings of a
  finding's level are the `LevelChoice` constructors:
  - `get("risk_level", get("risk"))`: the key's presence decides, not its truthiness.
  - `get("risk") or get("risk_level")`: a truthy `risk` is read first.
  - The same two readings with `risk` and `risk_level` swapped.
- **Plan documents.** The decoded plan is a `Parser.Document`: an object or
  not, and, under `resource_changes`, absent, a list, an empty string or object,
  a non-iterable scalar, or a non-empty string or object. A list entry is an
  object or not, and its `change` is falsy, an object or a truthy non-object.
  `Parser.Decode` turns the shapes the code can walk into a `Parser.Plan` and
  the others into the exception the code raises.
- **External services.** The object store's reads, the feeds' HTTP replies and
  the status table's acceptance of a write are parameters. Every write that is
  accepted is appended to the table's history, so the order of writes is stated
  exactly.

## Model

| member | source | states |
|---|---|---|
| Levels.Rank | cdk.out/asset.7c951359689c82d23e7c03de69b889ccd03d35621714e3b678ce6313da5c9b94/lib/risk_scoring.py:1 | the rank table maps LOW..CRITICAL onto 1..4 |
| Levels.OfRank | cdk.out/asset.7c951359689c82d23e7c03de69b889ccd03d35621714e3b678ce6313da5c9b94/lib/risk_scoring.py:2 | the reverse table has an entry exactly for the weights 1..4, and it inverts the rank |
| Levels.RankInjective | cdk.out/asset.7c951359689c82d23e7c03de69b889ccd03d35621714e3b678ce6313da5c9b94/lib/risk_scoring.py:1-2 | different severities have different ranks, so the reverse table is well defined |
| Levels.Parse | cdk.out/asset.f1b97a790fb4dbb8bdd50531c7ae4aa679ec993b46536ce695bd8e6347ac97e5/lib/risk_scoring.py:5-10 | a name found in a severity table is exactly the name of that severity |
| Levels.ParseName | cdk.out/asset.f1b97a790fb4dbb8bdd50531c7ae4aa679ec993b46536ce695bd8e6347ac97e5/lib/risk_scoring.py:5-10 | every severity name is found in the tables and is already upper-case |
| Levels.Weight | cdk.out/asset.f1b97a790fb4dbb8bdd50531c7ae4aa679ec993b46536ce695bd8e6347ac97e5/lib/risk_scoring.py:5-10 | the severity weights lie between 1 and 10 |
| Levels.WeightFollowsRank | cdk.out/asset.f1b97a790fb4dbb8bdd50531c7ae4aa679ec993b46536ce695bd8e6347ac97e5/lib/risk_scoring.py:5-10 | a higher rank means a strictly higher weight, and conversely |
| Levels.Max | cicd/ta_iac_runner.py:113-114 | the larger of two severities ranks at least as high as both and is one of them |
| Rounding.RoundHalfEven | cdk.out/asset.7c951359689c82d23e7c03de69b889ccd03d35621714e3b678ce6313da5c9b94/lib/risk_scoring.py:13 | Python's `round` on a value in tenths: the nearest integer, the even one on a tie |
| Rounding.RoundHalfEvenUnique | cdk.out/asset.7c951359689c82d23e7c03de69b889ccd03d35621714e3b678ce6313da5c9b94/lib/risk_scoring.py:13 | those two conditions determine the rounded value uniquely |
| Strings.Upper | cdk.out/asset.f1b97a790fb4dbb8bdd50531c7ae4aa679ec993b46536ce695bd8e6347ac97e5/lib/risk_scoring.py:32 | upper-cases each ASCII letter and leaves every other character as it is, so the length is kept (an ASCII-only stand-in for `str.upper()`) |
| Strings.Lower | cdk.out/asset.f1b97a790fb4dbb8bdd50531c7ae4aa679ec993b46536ce695bd8e6347ac97e5/lib/risk_scoring.py:33 | lower-cases each ASCII letter and leaves every other character as it is, so the length is kept (an ASCII-only stand-in for `str.lower()`) |
| Strings.UpperOfUpper | cdk.out/asset.f1b97a790fb4dbb8bdd50531c7ae4aa679ec993b46536ce695bd8e6347ac97e5/lib/correlation_engine.py:81 | upper-casing text without lower-case letters changes nothing |
| Strings.LowerOfUpper | cdk.out/asset.f1b97a790fb4dbb8bdd50531c7ae4aa679ec993b46536ce695bd8e6347ac97e5/lib/correlation_engine.py:42-45 | lower-casing forgets an earlier upper-casing |
| Strings.ContainsInfix | cdk.out/asset.f1b97a790fb4dbb8bdd50531c7ae4aa679ec993b46536ce695bd8e6347ac97e5/lib/correlation_engine.py:38 | `sub in s` holds wherever `sub` occurs in `s` |
| Strings.NatToString | cdk.out/asset.a473e9788f9b65e7526cd1ca3400a2cb9d2f601a6a80519de2887d41f655dfed/lib/explanation_builder.py:6 | a count prints as a non-empty run of decimal digits |
| Strings.NatToStringInjective | cdk.out/asset.a473e9788f9b65e7526cd1ca3400a2cb9d2f601a6a80519de2887d41f655dfed/lib/explanation_builder.py:6 | different counts print differently |
| Strings.ParseInt | cdk.out/asset.f1b97a790fb4dbb8bdd50531c7ae4aa679ec993b46536ce695bd8e6347ac97e5/lib/correlation_engine.py:56 | `int(s)` accepts exactly an optionally signed non-empty run of digits |
| Strings.DigitsValueOfNatToString | cdk.out/asset.f1b97a790fb4dbb8bdd50531c7ae4aa679ec993b46536ce695bd8e6347ac97e5/lib/correlation_engine.py:56 | reading the digits of a printed number gives the number back |
| Strings.ParseIntOfIntToString | cdk.out/asset.f1b97a790fb4dbb8bdd50531c7ae4aa679ec993b46536ce695bd8e6347ac97e5/lib/correlation_engine.py:56 | `int(str(n)) == n` for every integer |
| Strings.ParseIntOfDigits | cdk.out/asset.f1b97a790fb4dbb8bdd50531c7ae4aa679ec993b46536ce695bd8e6347ac97e5/lib/correlation_engine.py:56 | `int` reads a run of digits as its value, and with a minus sign as its negation |
| Resources.Or | cdk.out/asset.f1b97a790fb4dbb8bdd50531c7ae4aa679ec993b46536ce695bd8e6347ac97e5/lib/parser.py:4-5 | Python's `a or b` is one of its operands, `a` when truthy, otherwise `b`; the result is truthy iff either operand is |
| Resources.OrAssociative | cdk.out/asset.f1b97a790fb4dbb8bdd50531c7ae4aa679ec993b46536ce695bd8e6347ac97e5/lib/parser.py:7 | a chain of `or`s groups either way and yields its first truthy operand, or the last one |
| Resources.ChosenLevelCases | cdk.out/asset.f1b97a790fb4dbb8bdd50531c7ae4aa679ec993b46536ce695bd8e6347ac97e5/lib/correlation_engine.py:81 | the four ways of reading a finding's level agree unless both keys are present; with both truthy the preferred key wins; with neither the level is LOW |
| Parser.Describe | cdk.out/asset.f1b97a790fb4dbb8bdd50531c7ae4aa679ec993b46536ce695bd8e6347ac97e5/lib/parser.py:4-13 | type and name fall back to the address; the id is the address when truthy, else `type.name`; the attributes are `change.after`, else top-level `after`, else `{}` |
| Parser.DescribeAll | cdk.out/asset.f1b97a790fb4dbb8bdd50531c7ae4aa679ec993b46536ce695bd8e6347ac97e5/lib/parser.py:3-13 | exactly one descriptor per resource change, in input order |
| Parser.Fallback | cdk.out/asset.f1b97a790fb4dbb8bdd50531c7ae4aa679ec993b46536ce695bd8e6347ac97e5/lib/parser.py:15-18 | the fallback yields a descriptor for exactly the object-valued `aws_`/`azurerm_` keys, with id, type and name equal to the key, never more descriptors than entries |
| Parser.FallbackConcat | cdk.out/asset.f1b97a790fb4dbb8bdd50531c7ae4aa679ec993b46536ce695bd8e6347ac97e5/lib/parser.py:16-18 | the fallback handles the top-level entries one at a time in document order: its result on a concatenation is the concatenation of its results |
| Parser.FallbackSingle | cdk.out/asset.f1b97a790fb4dbb8bdd50531c7ae4aa679ec993b46536ce695bd8e6347ac97e5/lib/parser.py:17-18 | one entry gives one descriptor when it qualifies, and none otherwise |
| Parser.DecodeChange | cdk.out/asset.f1b97a790fb4dbb8bdd50531c7ae4aa679ec993b46536ce695bd8e6347ac97e5/lib/parser.py:6-7 | a falsy `change` gives no `after`; an object gives its `after`; a truthy non-object raises AttributeError |
| Parser.DecodeEntry | cdk.out/asset.f1b97a790fb4dbb8bdd50531c7ae4aa679ec993b46536ce695bd8e6347ac97e5/lib/parser.py:4-7 | an entry raises AttributeError exactly when it is not an object or its `change` is a truthy non-object, and otherwise keeps its fields |
| Parser.DecodeEntries | cdk.out/asset.f1b97a790fb4dbb8bdd50531c7ae4aa679ec993b46536ce695bd8e6347ac97e5/lib/parser.py:3-7 | the loop gets through the list exactly when no entry raises, keeping one change per entry in order; otherwise AttributeError |
| Parser.Decode | cdk.out/asset.f1b97a790fb4dbb8bdd50531c7ae4aa679ec993b46536ce695bd8e6347ac97e5/lib/parser.py:3-7 | a non-object document and a non-empty string or object under `resource_changes` raise AttributeError; null, a number or a bool there raises TypeError; absent or empty gives no changes; a list decodes exactly when every entry does |
| Parser.EncodeEntries | cdk.out/asset.f1b97a790fb4dbb8bdd50531c7ae4aa679ec993b46536ce695bd8e6347ac97e5/lib/parser.py:3-7 | one document entry per resource change, in order |
| Parser.DecodeEncode | cdk.out/asset.f1b97a790fb4dbb8bdd50531c7ae4aa679ec993b46536ce695bd8e6347ac97e5/lib/parser.py:3-7 | every walkable plan is the decoding of the document it encodes to |
| Parser.ParseDocument | cdk.out/asset.f1b97a790fb4dbb8bdd50531c7ae4aa679ec993b46536ce695bd8e6347ac97e5/lib/parser.py:1-19 | raises exactly when the document cannot be walked, with the same exception; an absent or empty `resource_changes` yields the fallback's descriptors |
| Parser.ParseIacPlan | cdk.out/asset.f1b97a790fb4dbb8bdd50531c7ae4aa679ec993b46536ce695bd8e6347ac97e5/lib/parser.py:1-19 | the loops raise exactly where the document cannot be walked, and otherwise produce one descriptor per resource change in order, or the fallback's when there are none |
| Parser.DescribeEntries | cdk.out/asset.f1b97a790fb4dbb8bdd50531c7ae4aa679ec993b46536ce695bd8e6347ac97e5/lib/parser.py:3-13 | the resource_changes loop raises AttributeError exactly where an entry or its change cannot be walked, and otherwise yields one descriptor per entry in order |
| Parser.FallbackScan | cdk.out/asset.f1b97a790fb4dbb8bdd50531c7ae4aa679ec993b46536ce695bd8e6347ac97e5/lib/parser.py:15-18 | the fallback loop over the top-level keys computes Fallback |
| Parser.NoResourcesParseToNothing | cdk.out/asset.f1b97a790fb4dbb8bdd50531c7ae4aa679ec993b46536ce695bd8e6347ac97e5/lib/parser.py:3-19 | a plan with no changes and no resource-like keys parses to `[]` |
| Parser.FallbackWithoutEntries | cdk.out/asset.f1b97a790fb4dbb8bdd50531c7ae4aa679ec993b46536ce695bd8e6347ac97e5/lib/parser.py:15-18 | the fallback finds nothing when no key qualifies |
| Parser.EmptyPlanParsesToNothing | cdk.out/asset.f1b97a790fb4dbb8bdd50531c7ae4aa679ec993b46536ce695bd8e6347ac97e5/lib/parser.py:3-19 | the empty document `{}` parses to `[]` without raising |
| Parser.SingleBucketChange | cdk.out/asset.f1b97a790fb4dbb8bdd50531c7ae4aa679ec993b46536ce695bd8e6347ac97e5/lib/parser.py:4-12 | one `aws_s3_bucket` change parses to one descriptor of that type, with its address as id and its `after` as attributes |
| Parser.FallbackUsesKeys | cdk.out/asset.f1b97a790fb4dbb8bdd50531c7ae4aa679ec993b46536ce695bd8e6347ac97e5/lib/parser.py:15-18 | in a plan without changes every qualifying key gives a descriptor whose id is the key |
| AbuseIpDb.AbuseSeverity | cdk.out/asset.79e5743d4a352e85a41d549be3e671e3ae193252c5fc529f5b1206b6c3abaae8/lib/adapters/abuseipdb_adapter.py:20-22 | HIGH iff the score is at least 75, MEDIUM iff 30..74, LOW below 30 |
| AbuseIpDb.Lookup | cdk.out/asset.79e5743d4a352e85a41d549be3e671e3ae193252c5fc529f5b1206b6c3abaae8/lib/adapters/abuseipdb_adapter.py:7-27 | a falsy ip gives `[]`; no key gives the one LOW placeholder; with a key there is one finding iff the reply is 200, scored by the thresholds (a missing score counts 0); never raises, at most one finding, never CRITICAL |
| AbuseIpDb.LookupIp | cdk.out/asset.79e5743d4a352e85a41d549be3e671e3ae193252c5fc529f5b1206b6c3abaae8/lib/adapters/abuseipdb_adapter.py:7-27 | the early returns and the if/elif chain compute `Lookup`, at most one finding |
| GreyNoise.Lookup | cdk.out/asset.cf625896c0e35e6ec9637a085ae72b02423b52f2dc3be637126637ce81eb041f/lib/adapters/greynoise_adapter.py:7-24 | a falsy ip gives `[]`; no key gives the LOW placeholder; with a key one MEDIUM `noise=true` finding iff the reply is 200 and `noise` is exactly True; at most one finding, only LOW or MEDIUM |
| GreyNoise.LookupIp | cdk.out/asset.cf625896c0e35e6ec9637a085ae72b02423b52f2dc3be637126637ce81eb041f/lib/adapters/greynoise_adapter.py:7-24 | the method computes `Lookup`, at most one finding |
| Shodan.ApacheCount | cdk.out/asset.cf625896c0e35e6ec9637a085ae72b02423b52f2dc3be637126637ce81eb041f/lib/adapters/shodan_adapter.py:23-25 | the apache count is at most the number of banners, and 0 iff no banner mentions apache |
| Shodan.ShodanSeverity | cdk.out/asset.cf625896c0e35e6ec9637a085ae72b02423b52f2dc3be637126637ce81eb041f/lib/adapters/shodan_adapter.py:26-27 | LOW iff the score is 0, MEDIUM iff 1..4, HIGH iff 5 or more |
| Shodan.VulnScore | cdk.out/asset.cf625896c0e35e6ec9637a085ae72b02423b52f2dc3be637126637ce81eb041f/lib/adapters/shodan_adapter.py:21-25 | at least the vulnerability count and at most that plus the banners; equal to it iff no banner mentions apache |
| Shodan.Lookup | cdk.out/asset.cf625896c0e35e6ec9637a085ae72b02423b52f2dc3be637126637ce81eb041f/lib/adapters/shodan_adapter.py:7-31 | a falsy host gives `[]`; no key gives the LOW placeholder; with a key one `vuln_count=` finding iff the reply is 200; never CRITICAL, at most one finding |
| Shodan.LookupHost | cdk.out/asset.cf625896c0e35e6ec9637a085ae72b02423b52f2dc3be637126637ce81eb041f/lib/adapters/shodan_adapter.py:7-31 | the banner loop and the bands compute `Lookup` |
| Shodan.AddApacheBanners | cdk.out/asset.cf625896c0e35e6ec9637a085ae72b02423b52f2dc3be637126637ce81eb041f/lib/adapters/shodan_adapter.py:23-25 | the banner loop adds one point per banner whose product mentions apache |
| Otx.Candidates | cdk.out/asset.cf625896c0e35e6ec9637a085ae72b02423b52f2dc3be637126637ce81eb041f/lib/adapters/otx_adapter.py:12-16 | `endpoint` then `public_ip`, each exactly when truthy, not deduplicated |
| Otx.Search | cdk.out/asset.cf625896c0e35e6ec9637a085ae72b02423b52f2dc3be637126637ce81eb041f/lib/adapters/otx_adapter.py:17-30 | the candidate loop yields at most one finding per candidate |
| Otx.SearchForResource | cdk.out/asset.cf625896c0e35e6ec9637a085ae72b02423b52f2dc3be637126637ce81eb041f/lib/adapters/otx_adapter.py:8-30 | the loop with `continue` and the absorbing `try` computes the specified findings, at most one per candidate |
| Otx.SearchCandidates | cdk.out/asset.cf625896c0e35e6ec9637a085ae72b02423b52f2dc3be637126637ce81eb041f/lib/adapters/otx_adapter.py:17-30 | the candidate loop, ended by the first raising lookup, computes `Search` |
| Otx.SearchStep | cdk.out/asset.cf625896c0e35e6ec9637a085ae72b02423b52f2dc3be637126637ce81eb041f/lib/adapters/otx_adapter.py:18-27 | one pass: a placeholder without a key, a stop exactly when the lookup raises, otherwise the candidate's contribution |
| Otx.SearchUnfold | cdk.out/asset.cf625896c0e35e6ec9637a085ae72b02423b52f2dc3be637126637ce81eb041f/lib/adapters/otx_adapter.py:17-27 | one loop step: a placeholder without a key, the end of the search on a raising lookup, the candidate's contribution otherwise |
| Otx.SearchWithoutKey | cdk.out/asset.cf625896c0e35e6ec9637a085ae72b02423b52f2dc3be637126637ce81eb041f/lib/adapters/otx_adapter.py:18-20 | without a key, one LOW placeholder per candidate, in candidate order |
| Otx.SearchFindings | cdk.out/asset.cf625896c0e35e6ec9637a085ae72b02423b52f2dc3be637126637ce81eb041f/lib/adapters/otx_adapter.py:19-27 | every finding is an OTX finding, and with a key every one is HIGH |
| Otx.NoKeyPlaceholders | cdk.out/asset.cf625896c0e35e6ec9637a085ae72b02423b52f2dc3be637126637ce81eb041f/lib/adapters/otx_adapter.py:13-20 | without a key as many findings as candidates, so none for a resource without candidates |
| Otx.SearchStopsAtFailure | cdk.out/asset.cf625896c0e35e6ec9637a085ae72b02423b52f2dc3be637126637ce81eb041f/lib/adapters/otx_adapter.py:11-30 | a lookup that raises keeps exactly the findings of the earlier candidates |
| Otx.SearchAppend | cdk.out/asset.cf625896c0e35e6ec9637a085ae72b02423b52f2dc3be637126637ce81eb041f/lib/adapters/otx_adapter.py:24-27 | with a key, a candidate adds a HIGH finding iff its reply is 200 and malicious, after the earlier ones |
| Aggregator.RawCandidates | cdk.out/asset.f1209f015e053cc7cb1c11dac54b7c93ed6f3cd84d680d499939d46d487cb1ca/lib/adapters/aggregator.py:20-26 | `public_ip` only when `associate_public_ip_address is True` and it is truthy, then `cidr_block` and `endpoint` when present |
| Aggregator.CandidateSet | cdk.out/asset.f1209f015e053cc7cb1c11dac54b7c93ed6f3cd84d680d499939d46d487cb1ca/lib/adapters/aggregator.py:28 | the deduplicated candidates are exactly the truthy raw candidates |
| Aggregator.Fanout | cdk.out/asset.f1209f015e053cc7cb1c11dac54b7c93ed6f3cd84d680d499939d46d487cb1ca/lib/adapters/aggregator.py:29-37 | each candidate adds at most three findings |
| Aggregator.QueryCandidate | cdk.out/asset.f1209f015e053cc7cb1c11dac54b7c93ed6f3cd84d680d499939d46d487cb1ca/lib/adapters/aggregator.py:32-34 | abuse, then greynoise, then shodan, concatenated |
| Aggregator.CheckResource | cdk.out/asset.f1209f015e053cc7cb1c11dac54b7c93ed6f3cd84d680d499939d46d487cb1ca/lib/adapters/aggregator.py:16-43 | for some enumeration of the candidate set, the candidate loop's findings followed by the OTX findings |
| Aggregator.QueryAll | cdk.out/asset.f1209f015e053cc7cb1c11dac54b7c93ed6f3cd84d680d499939d46d487cb1ca/lib/adapters/aggregator.py:28-37 | the loop over the deduplicated candidates visits each exactly once and gathers their fan-out in visiting order |
| Aggregator.NoCandidatesOnlyOtx | cdk.out/asset.f1209f015e053cc7cb1c11dac54b7c93ed6f3cd84d680d499939d46d487cb1ca/lib/adapters/aggregator.py:29-43 | with no candidates the result is exactly OTX's output |
| Aggregator.FanoutConcat | cdk.out/asset.f1209f015e053cc7cb1c11dac54b7c93ed6f3cd84d680d499939d46d487cb1ca/lib/adapters/aggregator.py:29-37 | candidates are queried independently: the fan-out of two orders is the concatenation of theirs |
| Aggregator.FanoutAround | cdk.out/asset.f1209f015e053cc7cb1c11dac54b7c93ed6f3cd84d680d499939d46d487cb1ca/lib/adapters/aggregator.py:29-37 | the fan-out splits around one candidate: its own findings plus those of the others |
| Aggregator.FanoutSingle | cdk.out/asset.f1209f015e053cc7cb1c11dac54b7c93ed6f3cd84d680d499939d46d487cb1ca/lib/adapters/aggregator.py:29-34 | one candidate contributes its three lookups |
| Aggregator.FanoutPermutation | cdk.out/asset.f1209f015e053cc7cb1c11dac54b7c93ed6f3cd84d680d499939d46d487cb1ca/lib/adapters/aggregator.py:28-37 | permuting the candidates permutes the findings and nothing more |
| Aggregator.CheckResourceOrderIrrelevant | cdk.out/asset.f1209f015e053cc7cb1c11dac54b7c93ed6f3cd84d680d499939d46d487cb1ca/lib/adapters/aggregator.py:28 | any two iteration orders of the set give the same findings as a multiset |
| Aggregator.DevModeFanout | cdk.out/asset.f1209f015e053cc7cb1c11dac54b7c93ed6f3cd84d680d499939d46d487cb1ca/lib/adapters/aggregator.py:11-34 | without keys each candidate yields exactly three LOW placeholders |
| Aggregator.FanoutNeverCritical | cdk.out/asset.f1209f015e053cc7cb1c11dac54b7c93ed6f3cd84d680d499939d46d487cb1ca/lib/adapters/aggregator.py:29-37 | the candidate loop never yields a CRITICAL finding |
| Aggregator.NeverCritical | cdk.out/asset.f1209f015e053cc7cb1c11dac54b7c93ed6f3cd84d680d499939d46d487cb1ca/lib/adapters/aggregator.py:16-43 | `check_resource` never yields a CRITICAL finding |
| Escalation.CurrentRank | cdk.out/asset.7c951359689c82d23e7c03de69b889ccd03d35621714e3b678ce6313da5c9b94/lib/risk_scoring.py:12 | the upper-cased level's rank, and 1 (LOW) for a level outside the table |
| Escalation.CurrentRankOfName | cdk.out/asset.7c951359689c82d23e7c03de69b889ccd03d35621714e3b678ce6313da5c9b94/lib/risk_scoring.py:12 | a severity's own name has that severity's rank |
| Escalation.EscalateRisk | cdk.out/asset.7c951359689c82d23e7c03de69b889ccd03d35621714e3b678ce6313da5c9b94/lib/risk_scoring.py:12-14 | a KeyError exactly when the rounded weight is below 1; otherwise the nearest rank to rank + factor, the even one on an exact half, or CRITICAL when that reaches 4 |
| Escalation.RoundMonotone | cdk.out/asset.7c951359689c82d23e7c03de69b889ccd03d35621714e3b678ce6313da5c9b94/lib/risk_scoring.py:13 | rounding preserves order |
| Escalation.RoundExact | cdk.out/asset.7c951359689c82d23e7c03de69b889ccd03d35621714e3b678ce6313da5c9b94/lib/risk_scoring.py:13 | rounding an integer gives it back |
| Escalation.FactorOneStepsUp | cdk.out/asset.7c951359689c82d23e7c03de69b889ccd03d35621714e3b678ce6313da5c9b94/lib/risk_scoring.py:8-13 | factor 1.0 moves exactly one level up, capped at CRITICAL |
| Escalation.FactorTwoStepsUp | cdk.out/asset.7c951359689c82d23e7c03de69b889ccd03d35621714e3b678ce6313da5c9b94/lib/risk_scoring.py:10-13 | factor 2.0 moves exactly two levels up, capped |
| Escalation.FactorOneAndAHalf | cdk.out/asset.7c951359689c82d23e7c03de69b889ccd03d35621714e3b678ce6313da5c9b94/lib/risk_scoring.py:9-13 | factor 1.5 rounds half to even: LOW to MEDIUM, MEDIUM and HIGH to CRITICAL |
| Escalation.NonNegativeFactorNeverLowers | cdk.out/asset.7c951359689c82d23e7c03de69b889ccd03d35621714e3b678ce6313da5c9b94/lib/risk_scoring.py:13-14 | a non-negative factor never raises an exception and never lowers the level |
| Escalation.EscalationMonotone | cdk.out/asset.7c951359689c82d23e7c03de69b889ccd03d35621714e3b678ce6313da5c9b94/lib/risk_scoring.py:13 | a larger factor never gives a lower level |
| Exposure.FactorTenths | cdk.out/asset.f1b97a790fb4dbb8bdd50531c7ae4aa679ec993b46536ce695bd8e6347ac97e5/lib/correlation_engine.py:62-68 | the factor is 1.0 + 0.7 + 0.4 + 0.3 for the signals that hold, and exceeds 1.0 iff some signal holds |
| Exposure.IsPublic | cdk.out/asset.f1b97a790fb4dbb8bdd50531c7ae4aa679ec993b46536ce695bd8e6347ac97e5/lib/correlation_engine.py:34-39 | a public ACL or a True `public` or `associate_public_ip_address` each make the resource public, as does an open CIDR (`OpenCidrIsPublic`) |
| Exposure.OpenCidrIsPublic | cdk.out/asset.f1b97a790fb4dbb8bdd50531c7ae4aa679ec993b46536ce695bd8e6347ac97e5/lib/correlation_engine.py:38 | `0.0.0.0/0` anywhere in the rendered attributes makes the resource public |
| Exposure.IsSensitive | cdk.out/asset.f1b97a790fb4dbb8bdd50531c7ae4aa679ec993b46536ce695bd8e6347ac97e5/lib/correlation_engine.py:41-46 | without a truthy name only the tags decide, on `prod` or `critical` |
| Exposure.SensitiveIgnoresCase | cdk.out/asset.f1b97a790fb4dbb8bdd50531c7ae4aa679ec993b46536ce695bd8e6347ac97e5/lib/correlation_engine.py:41-46 | upper-casing the tags and the name does not change the verdict, since both are lower-cased before the search |
| Exposure.Flags | cdk.out/asset.f1b97a790fb4dbb8bdd50531c7ae4aa679ec993b46536ce695bd8e6347ac97e5/lib/correlation_engine.py:70-76 | each flag occurs iff its signal holds, and there are exactly as many flags as signals that hold, so none repeats; no flags iff factor 1.0 |
| Exposure.FlagsInOrder | cdk.out/asset.f1b97a790fb4dbb8bdd50531c7ae4aa679ec993b46536ce695bd8e6347ac97e5/lib/correlation_engine.py:70-76 | every flag is one of public, sensitive, exposed_ports, and the flags appear in that order |
| Exposure.ContextIntensity | cdk.out/asset.f1b97a790fb4dbb8bdd50531c7ae4aa679ec993b46536ce695bd8e6347ac97e5/lib/correlation_engine.py:62-76 | the `+=` and `append` steps compute the factor and the flags |
| Exposure.Escalated | cdk.out/asset.7c951359689c82d23e7c03de69b889ccd03d35621714e3b678ce6313da5c9b94/lib/correlation_engine.py:105-106 | escalation by `factor - 1` never lowers the level |
| Exposure.EscalatedStep | cdk.out/asset.7c951359689c82d23e7c03de69b889ccd03d35621714e3b678ce6313da5c9b94/lib/correlation_engine.py:34-88 | the level rises by exactly one step (capped) when public, or sensitive with exposed ports; sensitive-only or ports-only leaves it |
| Exposure.ItemValue | cdk.out/asset.f1b97a790fb4dbb8bdd50531c7ae4aa679ec993b46536ce695bd8e6347ac97e5/lib/correlation_engine.py:56 | `int(p)`: an int is itself, a float or bool its truncation, a string its digits' value or ValueError, anything else TypeError |
| Exposure.NumberEntryExposes | cdk.out/asset.f1b97a790fb4dbb8bdd50531c7ae4aa679ec993b46536ce695bd8e6347ac97e5/lib/correlation_engine.py:54-57 | a float port entry 22.0 counts as the exposed port 22 |
| Exposure.PrependLaws | cdk.out/asset.f1b97a790fb4dbb8bdd50531c7ae4aa679ec993b46536ce695bd8e6347ac97e5/lib/correlation_engine.py:54-57 | accumulating ports in front of a loop outcome is a monoid action |
| Exposure.ScanItems | cdk.out/asset.f1b97a790fb4dbb8bdd50531c7ae4aa679ec993b46536ce695bd8e6347ac97e5/lib/correlation_engine.py:54-59 | the port loop raises only TypeError, or ValueError when those are not skipped |
| Exposure.ScanItemsOk | cdk.out/asset.f1b97a790fb4dbb8bdd50531c7ae4aa679ec993b46536ce695bd8e6347ac97e5/lib/correlation_engine.py:54-59 | the loop completes iff every entry converts or is skipped |
| Exposure.ScanItemsCollects | cdk.out/asset.f1b97a790fb4dbb8bdd50531c7ae4aa679ec993b46536ce695bd8e6347ac97e5/lib/correlation_engine.py:56-57 | the collected ports are exactly the sensitive ports the entries convert to |
| CorrelationFull.PortsOf | cdk.out/asset.7c951359689c82d23e7c03de69b889ccd03d35621714e3b678ce6313da5c9b94/lib/correlation_engine.py:72-79 | no `port` key means no ports; a null `port` raises TypeError |
| CorrelationFull.ExposedPorts | cdk.out/asset.7c951359689c82d23e7c03de69b889ccd03d35621714e3b678ce6313da5c9b94/lib/correlation_engine.py:72-79 | the port loop, where every failure propagates, computes `PortsOf` |
| CorrelationFull.ContextOf | cdk.out/asset.7c951359689c82d23e7c03de69b889ccd03d35621714e3b678ce6313da5c9b94/lib/correlation_engine.py:58-79 | the context raises iff the port block does; public and sensitive are the documented signals |
| CorrelationFull.CorrelateOne | cdk.out/asset.7c951359689c82d23e7c03de69b889ccd03d35621714e3b678ce6313da5c9b94/lib/correlation_engine.py:99-116 | a copy that changes only `risk_level`, `details` and `context_flags`: with no signal the upper-cased level and untouched details, otherwise the escalated level and a note |
| CorrelationFull.EscalationDetails | cdk.out/asset.7c951359689c82d23e7c03de69b889ccd03d35621714e3b678ce6313da5c9b94/lib/correlation_engine.py:108-111 | the note begins with the read and the escalated level and ends with the factor and the evidence |
| CorrelationFull.CorrelateOneCases | cdk.out/asset.7c951359689c82d23e7c03de69b889ccd03d35621714e3b678ce6313da5c9b94/lib/correlation_engine.py:99-116 | the two shapes of the copy, field by field |
| CorrelationFull.CorrelateAll | cdk.out/asset.7c951359689c82d23e7c03de69b889ccd03d35621714e3b678ce6313da5c9b94/lib/correlation_engine.py:99-118 | one correlated copy per finding, same length and order |
| CorrelationFull.DetectContext | cdk.out/asset.7c951359689c82d23e7c03de69b889ccd03d35621714e3b678ce6313da5c9b94/lib/correlation_engine.py:58-79 | the context block computes `ContextOf` |
| CorrelationFull.CopyWithContext | cdk.out/asset.7c951359689c82d23e7c03de69b889ccd03d35621714e3b678ce6313da5c9b94/lib/correlation_engine.py:100-116 | the loop body builds the correlated copy |
| CorrelationFull.EscalateFindings | cdk.out/asset.7c951359689c82d23e7c03de69b889ccd03d35621714e3b678ce6313da5c9b94/lib/correlation_engine.py:82-118 | the factor, the flags and the loop compute `CorrelateAll` |
| CorrelationFull.CorrelateAllSnoc | cdk.out/asset.7c951359689c82d23e7c03de69b889ccd03d35621714e3b678ce6313da5c9b94/lib/correlation_engine.py:99-118 | one more finding appends exactly its correlated copy |
| CorrelationFull.CorrelateThreats | cdk.out/asset.7c951359689c82d23e7c03de69b889ccd03d35621714e3b678ce6313da5c9b94/lib/correlation_engine.py:49-118 | `correlate_threats` computes `Correlate` |
| CorrelationFull.CorrelateEscalation | cdk.out/asset.7c951359689c82d23e7c03de69b889ccd03d35621714e3b678ce6313da5c9b94/lib/correlation_engine.py:105-107 | each finding's new rank is the one-step bump or the unchanged rank, by the bump rule |
| CorrelationFull.BadPortRaises | cdk.out/asset.7c951359689c82d23e7c03de69b889ccd03d35621714e3b678ce6313da5c9b94/lib/correlation_engine.py:77-79 | an entry `int()` rejects makes `correlate_threats` raise |
| CorrelationFull.CalculateRisk | cdk.out/asset.7c951359689c82d23e7c03de69b889ccd03d35621714e3b678ce6313da5c9b94/lib/correlation_engine.py:124-155 | this file's weighted scorer, reading a truthy `risk_level` first |
| CorrelationFull.ScoreSum | cdk.out/asset.7c951359689c82d23e7c03de69b889ccd03d35621714e3b678ce6313da5c9b94/lib/correlation_engine.py:170-177 | the score sum raises KeyError exactly when some `risk_level` is missing or outside the table |
| CorrelationFull.LevelCount | cdk.out/asset.7c951359689c82d23e7c03de69b889ccd03d35621714e3b678ce6313da5c9b94/lib/correlation_engine.py:177 | no more findings carry a level than there are findings |
| CorrelationFull.ScoreSumCounts | cdk.out/asset.7c951359689c82d23e7c03de69b889ccd03d35621714e3b678ce6313da5c9b94/lib/correlation_engine.py:170-177 | the total is 1 per LOW, 3 per MEDIUM, 6 per HIGH and 10 per CRITICAL finding |
| CorrelationFull.EvaluateResourceRisk | cdk.out/asset.7c951359689c82d23e7c03de69b889ccd03d35621714e3b678ce6313da5c9b94/lib/correlation_engine.py:161-185 | `final_risk` is the score of the correlated findings; the total is their score sum over their count; a KeyError exactly when some correlated level is outside the table; no findings is a division by zero; a port error propagates; the name defaults to `unknown` |
| CorrelationFull.SignalledResourceEvaluates | cdk.out/asset.7c951359689c82d23e7c03de69b889ccd03d35621714e3b678ce6313da5c9b94/lib/correlation_engine.py:177 | with any signal every non-empty batch evaluates |
| CorrelationFull.UnknownLevelWithoutSignalRaises | cdk.out/asset.7c951359689c82d23e7c03de69b889ccd03d35621714e3b678ce6313da5c9b94/lib/correlation_engine.py:177 | without signals an unknown level survives and the summary raises KeyError |
| CorrelationFull.EmptyLevelFallsBack | cdk.out/asset.7c951359689c82d23e7c03de69b889ccd03d35621714e3b678ce6313da5c9b94/lib/correlation_engine.py:101-136 | an empty `risk_level` falls back to `risk` here, unlike the deployed scorer's key test |
| CorrelationDeployed.PortsOf | cdk.out/asset.f1b97a790fb4dbb8bdd50531c7ae4aa679ec993b46536ce695bd8e6347ac97e5/lib/correlation_engine.py:49-59 | an absent or falsy `port` means no ports; only a TypeError can escape |
| CorrelationDeployed.ExposedPorts | cdk.out/asset.f1b97a790fb4dbb8bdd50531c7ae4aa679ec993b46536ce695bd8e6347ac97e5/lib/correlation_engine.py:49-59 | the port loop with `except ValueError: continue` computes `PortsOf` |
| CorrelationDeployed.ContextOf | cdk.out/asset.f1b97a790fb4dbb8bdd50531c7ae4aa679ec993b46536ce695bd8e6347ac97e5/lib/correlation_engine.py:34-59 | the context raises iff the port block does; public and sensitive are the four- and two-part tests |
| CorrelationDeployed.CorrelateOne | cdk.out/asset.f1b97a790fb4dbb8bdd50531c7ae4aa679ec993b46536ce695bd8e6347ac97e5/lib/correlation_engine.py:79-95 | a copy changing only `risk_level`, `details` and `context_flags`: factor 1.0 gives the upper-cased level and the `No escalation` note, otherwise the escalated level and the escalation note |
| CorrelationDeployed.EscalationDetails | cdk.out/asset.f1b97a790fb4dbb8bdd50531c7ae4aa679ec993b46536ce695bd8e6347ac97e5/lib/correlation_engine.py:86-89 | the note begins with the read and the escalated level and ends with the evidence, `N/A` when absent |
| CorrelationDeployed.PlainDetails | cdk.out/asset.f1b97a790fb4dbb8bdd50531c7ae4aa679ec993b46536ce695bd8e6347ac97e5/lib/correlation_engine.py:92 | the note begins `No escalation.` and ends with the evidence |
| CorrelationDeployed.DetailsTellBranch | cdk.out/asset.f1b97a790fb4dbb8bdd50531c7ae4aa679ec993b46536ce695bd8e6347ac97e5/lib/correlation_engine.py:83-92 | the two notes never coincide, so `details` records which branch ran |
| CorrelationDeployed.CorrelateOneCases | cdk.out/asset.f1b97a790fb4dbb8bdd50531c7ae4aa679ec993b46536ce695bd8e6347ac97e5/lib/correlation_engine.py:79-95 | the two shapes of the copy, field by field |
| CorrelationDeployed.CorrelateAll | cdk.out/asset.f1b97a790fb4dbb8bdd50531c7ae4aa679ec993b46536ce695bd8e6347ac97e5/lib/correlation_engine.py:79-97 | one correlated copy per finding, same length and order |
| CorrelationDeployed.DetectContext | cdk.out/asset.f1b97a790fb4dbb8bdd50531c7ae4aa679ec993b46536ce695bd8e6347ac97e5/lib/correlation_engine.py:30-59 | the context block computes `ContextOf` |
| CorrelationDeployed.CopyWithContext | cdk.out/asset.f1b97a790fb4dbb8bdd50531c7ae4aa679ec993b46536ce695bd8e6347ac97e5/lib/correlation_engine.py:80-94 | the loop body builds the correlated copy |
| CorrelationDeployed.EscalateFindings | cdk.out/asset.f1b97a790fb4dbb8bdd50531c7ae4aa679ec993b46536ce695bd8e6347ac97e5/lib/correlation_engine.py:62-97 | the factor, the flags and the loop compute `CorrelateAll` |
| CorrelationDeployed.CorrelateAllSnoc | cdk.out/asset.f1b97a790fb4dbb8bdd50531c7ae4aa679ec993b46536ce695bd8e6347ac97e5/lib/correlation_engine.py:79-97 | one more finding appends exactly its correlated copy |
| CorrelationDeployed.CorrelateThreats | cdk.out/asset.f1b97a790fb4dbb8bdd50531c7ae4aa679ec993b46536ce695bd8e6347ac97e5/lib/correlation_engine.py:26-97 | `correlate_threats` computes `Correlate` |
| CorrelationDeployed.CorrelateEscalation | cdk.out/asset.f1b97a790fb4dbb8bdd50531c7ae4aa679ec993b46536ce695bd8e6347ac97e5/lib/correlation_engine.py:83-91 | each finding's new rank is one step above the raw level's rank (capped) when the context bumps, and unchanged otherwise |
| CorrelationDeployed.PublicAclFlagsEveryFinding | cdk.out/asset.f1b97a790fb4dbb8bdd50531c7ae4aa679ec993b46536ce695bd8e6347ac97e5/lib/correlation_engine.py:37-94 | a public ACL puts `public` in every finding's flags, raises every level one step (capped at CRITICAL) and attaches the escalation note |
| CorrelationDeployed.CorrelateRaises | cdk.out/asset.f1b97a790fb4dbb8bdd50531c7ae4aa679ec993b46536ce695bd8e6347ac97e5/lib/correlation_engine.py:50-59 | `correlate_threats` raises iff a truthy `port` holds an entry `int()` rejects with TypeError |
| CorrelationDeployed.CorrelateOneIdempotent | cdk.out/asset.f1b97a790fb4dbb8bdd50531c7ae4aa679ec993b46536ce695bd8e6347ac97e5/lib/correlation_engine.py:81 | re-correlating a finding that has `risk` changes nothing, since the raw `risk` is read again |
| CorrelationDeployed.CorrelateIdempotent | cdk.out/asset.f1b97a790fb4dbb8bdd50531c7ae4aa679ec993b46536ce695bd8e6347ac97e5/lib/correlation_engine.py:79-97 | correlating a batch twice is the same as once, when every finding has `risk` |
| CorrelationDeployed.LevelOnlyFindingCompounds | cdk.out/asset.f1b97a790fb4dbb8bdd50531c7ae4aa679ec993b46536ce695bd8e6347ac97e5/lib/correlation_engine.py:81-85 | a finding with only `risk_level` climbs on every pass: LOW, MEDIUM, HIGH |
| CorrelationOneStep.StepUp | cdk.out/asset.f1209f015e053cc7cb1c11dac54b7c93ed6f3cd84d680d499939d46d487cb1ca/lib/correlation_engine.py:16-27 | one rank up from the level's rank, LOW when unknown, capped at CRITICAL |
| CorrelationOneStep.StepUpTable | cdk.out/asset.f1209f015e053cc7cb1c11dac54b7c93ed6f3cd84d680d499939d46d487cb1ca/lib/correlation_engine.py:2-27 | LOW to MEDIUM, MEDIUM to HIGH, HIGH and CRITICAL to CRITICAL |
| CorrelationOneStep.StepUpUnknown | cdk.out/asset.f1209f015e053cc7cb1c11dac54b7c93ed6f3cd84d680d499939d46d487cb1ca/lib/correlation_engine.py:21-24 | an unknown level becomes MEDIUM |
| CorrelationOneStep.CorrelateOne | cdk.out/asset.f1209f015e053cc7cb1c11dac54b7c93ed6f3cd84d680d499939d46d487cb1ca/lib/correlation_engine.py:52-68 | public: the stepped level and a note; not public: only `risk_level` set to the upper-cased level; other fields untouched |
| CorrelationOneStep.StepDetails | cdk.out/asset.f1209f015e053cc7cb1c11dac54b7c93ed6f3cd84d680d499939d46d487cb1ca/lib/correlation_engine.py:65 | the note begins with the read and the stepped level and ends with the original evidence |
| CorrelationOneStep.Correlate | cdk.out/asset.f1209f015e053cc7cb1c11dac54b7c93ed6f3cd84d680d499939d46d487cb1ca/lib/correlation_engine.py:50-72 | one correlated copy per finding, same length and order; it never raises |
| CorrelationOneStep.DetectPublic | cdk.out/asset.f1209f015e053cc7cb1c11dac54b7c93ed6f3cd84d680d499939d46d487cb1ca/lib/correlation_engine.py:36-48 | the three `if` tests compute the public signal |
| CorrelationOneStep.CopyWithLevel | cdk.out/asset.f1209f015e053cc7cb1c11dac54b7c93ed6f3cd84d680d499939d46d487cb1ca/lib/correlation_engine.py:54-68 | the loop body builds the correlated copy |
| CorrelationOneStep.CorrelateThreats | cdk.out/asset.f1209f015e053cc7cb1c11dac54b7c93ed6f3cd84d680d499939d46d487cb1ca/lib/correlation_engine.py:29-72 | `correlate_threats` computes `Correlate` |
| CorrelationOneStep.AgreesWithDeployedWhenPublic | cdk.out/asset.f1209f015e053cc7cb1c11dac54b7c93ed6f3cd84d680d499939d46d487cb1ca/lib/correlation_engine.py:59-62 | for a public resource this engine and the deployed one assign the same levels |
| CorrelationOneStep.NotPublicIdempotent | cdk.out/asset.f1209f015e053cc7cb1c11dac54b7c93ed6f3cd84d680d499939d46d487cb1ca/lib/correlation_engine.py:66-68 | for a resource that is not public, correlating twice is correlating once |
| CorrelationFilter.Filter | lambdas/lib/correlation_engine.py:8-14 | the kept findings are no more than the inputs |
| CorrelationFilter.IsPublic | lambdas/lib/correlation_engine.py:3-7 | this engine's public test implies the later engines' test, which is wider only by the open CIDR |
| CorrelationFilter.Kept | lambdas/lib/correlation_engine.py:10-13 | kept iff public or `risk` is present and exactly HIGH or CRITICAL; an absent or null `risk` counts as LOW |
| CorrelationFilter.CorrelateThreats | lambdas/lib/correlation_engine.py:1-14 | the loop computes the filter of the findings under the public test without a CIDR check |
| CorrelationFilter.FilterSound | lambdas/lib/correlation_engine.py:12-13 | everything kept is an input finding that passes the test |
| CorrelationFilter.FilterComplete | lambdas/lib/correlation_engine.py:12-13 | every input that passes the test is kept |
| CorrelationFilter.PublicKeepsAll | lambdas/lib/correlation_engine.py:12-13 | a public resource keeps every finding, unchanged and in order |
| CorrelationFilter.FilterIdempotent | lambdas/lib/correlation_engine.py:9-14 | filtering a filtered list changes nothing |
| CorrelationFilter.FilterConcat | lambdas/lib/correlation_engine.py:9-14 | the filter distributes over concatenation, so the order is preserved |
| CorrelationFilter.LowerCaseHighDropped | lambdas/lib/correlation_engine.py:10-12 | the test is case-sensitive: a `high` risk is dropped |
| WeightedScoring.WeightOf | cdk.out/asset.f1b97a790fb4dbb8bdd50531c7ae4aa679ec993b46536ce695bd8e6347ac97e5/lib/risk_scoring.py:36 | the severity weight, 1 for an unknown name |
| WeightedScoring.Confidence | cdk.out/asset.f1b97a790fb4dbb8bdd50531c7ae4aa679ec993b46536ce695bd8e6347ac97e5/lib/risk_scoring.py:12-34 | the feed confidence in tenths, 0.5 for an unknown feed |
| WeightedScoring.FindingConfidence | cdk.out/asset.f1b97a790fb4dbb8bdd50531c7ae4aa679ec993b46536ce695bd8e6347ac97e5/lib/risk_scoring.py:33-34 | the confidence of the lower-cased feed lies between 0.5 and 0.9 |
| WeightedScoring.Contribution | cdk.out/asset.f1b97a790fb4dbb8bdd50531c7ae4aa679ec993b46536ce695bd8e6347ac97e5/lib/risk_scoring.py:36 | weight times confidence, between one and ten times the confidence |
| WeightedScoring.WeightedSum | cdk.out/asset.f1b97a790fb4dbb8bdd50531c7ae4aa679ec993b46536ce695bd8e6347ac97e5/lib/risk_scoring.py:31-37 | the weighted sum lies between one and ten times the total confidence |
| WeightedScoring.TotalWeight | cdk.out/asset.f1b97a790fb4dbb8bdd50531c7ae4aa679ec993b46536ce695bd8e6347ac97e5/lib/risk_scoring.py:31-37 | the total confidence lies between 0.5 and 0.9 per finding |
| WeightedScoring.Denominator | cdk.out/asset.f1b97a790fb4dbb8bdd50531c7ae4aa679ec993b46536ce695bd8e6347ac97e5/lib/risk_scoring.py:39 | `max(total, 1)`: at least 1.0 and at least the total |
| WeightedScoring.Classify | cdk.out/asset.f1b97a790fb4dbb8bdd50531c7ae4aa679ec993b46536ce695bd8e6347ac97e5/lib/risk_scoring.py:42-49 | CRITICAL iff mean >= 8, HIGH iff 5..8, MEDIUM iff 2..5, LOW below 2, with the mean cross-multiplied |
| WeightedScoring.CalculateRisk | cdk.out/asset.f1b97a790fb4dbb8bdd50531c7ae4aa679ec993b46536ce695bd8e6347ac97e5/lib/risk_scoring.py:20-49 | the two accumulator loops and the chain compute `Score`; the deployed scorer reads the `risk_level` key first (`LevelKeyFirst`) |
| WeightedScoring.Accumulate | cdk.out/asset.f1b97a790fb4dbb8bdd50531c7ae4aa679ec993b46536ce695bd8e6347ac97e5/lib/risk_scoring.py:28-37 | the loop's two accumulators end on `WeightedSum` and `TotalWeight` |
| WeightedScoring.TotalWeightSingle | cdk.out/asset.f1b97a790fb4dbb8bdd50531c7ae4aa679ec993b46536ce695bd8e6347ac97e5/lib/risk_scoring.py:36-37 | a single finding contributes its confidence to the total and its weighted severity to the sum |
| WeightedScoring.CriticalContribution | cdk.out/asset.f1b97a790fb4dbb8bdd50531c7ae4aa679ec993b46536ce695bd8e6347ac97e5/lib/risk_scoring.py:36 | a CRITICAL finding adds ten times its confidence |
| WeightedScoring.ClassifyMonotone | cdk.out/asset.f1b97a790fb4dbb8bdd50531c7ae4aa679ec993b46536ce695bd8e6347ac97e5/lib/risk_scoring.py:42-49 | a larger sum never classifies lower |
| WeightedScoring.AllLowIsLow | cdk.out/asset.f1b97a790fb4dbb8bdd50531c7ae4aa679ec993b46536ce695bd8e6347ac97e5/lib/risk_scoring.py:36-49 | all-LOW (or unknown) findings always give LOW |
| WeightedScoring.AllCritical | cdk.out/asset.f1b97a790fb4dbb8bdd50531c7ae4aa679ec993b46536ce695bd8e6347ac97e5/lib/risk_scoring.py:36-43 | all-CRITICAL findings give CRITICAL iff their total confidence reaches 0.8, and at least HIGH |
| WeightedScoring.AllCriticalSum | cdk.out/asset.f1b97a790fb4dbb8bdd50531c7ae4aa679ec993b46536ce695bd8e6347ac97e5/lib/risk_scoring.py:36 | all-CRITICAL findings sum to ten times their confidence |
| WeightedScoring.LoneShodanCriticalIsHigh | cdk.out/asset.f1b97a790fb4dbb8bdd50531c7ae4aa679ec993b46536ce695bd8e6347ac97e5/lib/risk_scoring.py:36-45 | one CRITICAL shodan finding alone averages 7.0: HIGH |
| WeightedScoring.LoneShodanHighIsMedium | cdk.out/asset.f1b97a790fb4dbb8bdd50531c7ae4aa679ec993b46536ce695bd8e6347ac97e5/lib/risk_scoring.py:36-47 | one HIGH shodan finding alone averages 4.2: MEDIUM |
| WeightedScoring.ContributionMonotone | cdk.out/asset.f1b97a790fb4dbb8bdd50531c7ae4aa679ec993b46536ce695bd8e6347ac97e5/lib/risk_scoring.py:36 | a higher weight at the same confidence contributes at least as much |
| WeightedScoring.MulMonotone | cdk.out/asset.f1b97a790fb4dbb8bdd50531c7ae4aa679ec993b46536ce695bd8e6347ac97e5/lib/risk_scoring.py:36 | multiplying by a confidence preserves order |
| WeightedScoring.WeightedSumMonotone | cdk.out/asset.f1b97a790fb4dbb8bdd50531c7ae4aa679ec993b46536ce695bd8e6347ac97e5/lib/risk_scoring.py:31-37 | raising levels, feeds unchanged, keeps the total and never lowers the sum |
| WeightedScoring.ScoreMonotone | cdk.out/asset.f1b97a790fb4dbb8bdd50531c7ae4aa679ec993b46536ce695bd8e6347ac97e5/lib/risk_scoring.py:36-49 | raising any finding's level never lowers the result |
| WeightedScoring.WeightedSumConcat | cdk.out/asset.f1b97a790fb4dbb8bdd50531c7ae4aa679ec993b46536ce695bd8e6347ac97e5/lib/risk_scoring.py:31-36 | the sum of two batches is the sum of their sums |
| WeightedScoring.TotalWeightConcat | cdk.out/asset.f1b97a790fb4dbb8bdd50531c7ae4aa679ec993b46536ce695bd8e6347ac97e5/lib/risk_scoring.py:31-37 | the total of two batches is the sum of their totals |
| WeightedScoring.WeightedSumRemove | cdk.out/asset.f1b97a790fb4dbb8bdd50531c7ae4aa679ec993b46536ce695bd8e6347ac97e5/lib/risk_scoring.py:31-36 | removing one finding removes exactly its contribution |
| WeightedScoring.TotalWeightRemove | cdk.out/asset.f1b97a790fb4dbb8bdd50531c7ae4aa679ec993b46536ce695bd8e6347ac97e5/lib/risk_scoring.py:31-37 | removing one finding removes exactly its confidence |
| WeightedScoring.WeightedSumPermutation | cdk.out/asset.f1b97a790fb4dbb8bdd50531c7ae4aa679ec993b46536ce695bd8e6347ac97e5/lib/risk_scoring.py:31-36 | the weighted sum depends only on the multiset of findings |
| WeightedScoring.TotalWeightPermutation | cdk.out/asset.f1b97a790fb4dbb8bdd50531c7ae4aa679ec993b46536ce695bd8e6347ac97e5/lib/risk_scoring.py:31-37 | the total depends only on the multiset of findings |
| WeightedScoring.ScorePermutation | cdk.out/asset.f1b97a790fb4dbb8bdd50531c7ae4aa679ec993b46536ce695bd8e6347ac97e5/lib/risk_scoring.py:20-49 | the result does not depend on the order of the findings |
| FlatScoring.WeightOf | cdk.out/asset.79e5743d4a352e85a41d549be3e671e3ae193252c5fc529f5b1206b6c3abaae8/lib/risk_scoring.py:1-25 | the severity weight, 0 exactly for an unknown name |
| FlatScoring.Total | cdk.out/asset.79e5743d4a352e85a41d549be3e671e3ae193252c5fc529f5b1206b6c3abaae8/lib/risk_scoring.py:16-25 | the total is at most 10 per finding |
| FlatScoring.Classify | cdk.out/asset.79e5743d4a352e85a41d549be3e671e3ae193252c5fc529f5b1206b6c3abaae8/lib/risk_scoring.py:28-35 | CRITICAL iff total >= 10, HIGH iff 6..9, MEDIUM iff 3..5, LOW below 3 |
| FlatScoring.CalculateRisk | cdk.out/asset.79e5743d4a352e85a41d549be3e671e3ae193252c5fc529f5b1206b6c3abaae8/lib/risk_scoring.py:8-35 | the `total_score` loop and the chain compute `Score` for a given way of reading the level |
| FlatScoring.CalculateRiskLevelFirst | cdk.out/asset.79e5743d4a352e85a41d549be3e671e3ae193252c5fc529f5b1206b6c3abaae8/lib/risk_scoring.py:8-35 | this scorer reads a truthy `risk_level` first, else `risk`, else LOW |
| FlatScoring.CalculateRiskRiskFirst | cdk.out/asset.a473e9788f9b65e7526cd1ca3400a2cb9d2f601a6a80519de2887d41f655dfed/lib/risk_scoring.py:8-31 | this scorer reads a truthy `risk` first, else `risk_level`, else LOW |
| FlatScoring.ClassifyMonotone | cdk.out/asset.79e5743d4a352e85a41d549be3e671e3ae193252c5fc529f5b1206b6c3abaae8/lib/risk_scoring.py:28-35 | a larger total never classifies lower |
| FlatScoring.TotalAppend | cdk.out/asset.79e5743d4a352e85a41d549be3e671e3ae193252c5fc529f5b1206b6c3abaae8/lib/risk_scoring.py:17-25 | appending a finding adds exactly its weight |
| FlatScoring.AddingNeverLowers | cdk.out/asset.79e5743d4a352e85a41d549be3e671e3ae193252c5fc529f5b1206b6c3abaae8/lib/risk_scoring.py:25-35 | adding a finding never lowers the result |
| FlatScoring.TotalMonotone | cdk.out/asset.a473e9788f9b65e7526cd1ca3400a2cb9d2f601a6a80519de2887d41f655dfed/lib/risk_scoring.py:17-21 | raising levels never lowers the total |
| FlatScoring.ScoreMonotone | cdk.out/asset.a473e9788f9b65e7526cd1ca3400a2cb9d2f601a6a80519de2887d41f655dfed/lib/risk_scoring.py:21-31 | raising any finding's level never lowers the result |
| FlatScoring.TotalCovers | cdk.out/asset.79e5743d4a352e85a41d549be3e671e3ae193252c5fc529f5b1206b6c3abaae8/lib/risk_scoring.py:25 | every finding's weight is part of the total |
| FlatScoring.AnyCriticalIsCritical | cdk.out/asset.79e5743d4a352e85a41d549be3e671e3ae193252c5fc529f5b1206b6c3abaae8/lib/risk_scoring.py:1-29 | any CRITICAL finding forces CRITICAL |
| FlatScoring.ThreeLowsAreMedium | cdk.out/asset.79e5743d4a352e85a41d549be3e671e3ae193252c5fc529f5b1206b6c3abaae8/lib/risk_scoring.py:1-35 | two LOW findings give LOW, three give MEDIUM |
| FlatScoring.UnknownLevelsWeighNothing | cdk.out/asset.79e5743d4a352e85a41d549be3e671e3ae193252c5fc529f5b1206b6c3abaae8/lib/risk_scoring.py:25-35 | findings with unknown levels total 0 and give LOW |
| FlatScoring.EscalationSeenOnlyLevelFirst | cdk.out/asset.a473e9788f9b65e7526cd1ca3400a2cb9d2f601a6a80519de2887d41f655dfed/lib/risk_scoring.py:19 | an escalated `risk_level` is scored by the level-first reader and ignored by the risk-first one |
| FlatScoring.RiskFirstIgnoresLevel | cdk.out/asset.a473e9788f9b65e7526cd1ca3400a2cb9d2f601a6a80519de2887d41f655dfed/lib/risk_scoring.py:19 | when every finding has a truthy `risk`, rewriting `risk_level` never changes the risk-first total or result |
| Explanation.BuildExplanation | cdk.out/asset.a473e9788f9b65e7526cd1ca3400a2cb9d2f601a6a80519de2887d41f655dfed/lib/explanation_builder.py:1-8 | id and type copied from the resource, the score verbatim, the findings unchanged and in order |
| Explanation.DetailsRoundTrip | cdk.out/asset.a473e9788f9b65e7526cd1ca3400a2cb9d2f601a6a80519de2887d41f655dfed/lib/explanation_builder.py:6 | the count can be read back out of `details`: it is the number of findings |
| Explanation.DetailsDistinguishCounts | cdk.out/asset.a473e9788f9b65e7526cd1ca3400a2cb9d2f601a6a80519de2887d41f655dfed/lib/explanation_builder.py:6 | two records carry the same `details` iff their batches have the same size |
| StatusStore.UpdateSetsOnlyWhatIsGiven | cdk.out/asset.f1b97a790fb4dbb8bdd50531c7ae4aa679ec993b46536ce695bd8e6347ac97e5/worker_lambda.py:37-60 | the update succeeds iff the id is not null and the table takes it; then the status is set, results and error only when given, no other item changes; on failure nothing changes |
| StatusStore.FailedKeepsEarlierResults | cdk.out/asset.f1b97a790fb4dbb8bdd50531c7ae4aa679ec993b46536ce695bd8e6347ac97e5/worker_lambda.py:43-48 | FAILED after COMPLETED keeps the stored results next to the error |
| StatusStore.Store.constructor | cdk.out/asset.f1b97a790fb4dbb8bdd50531c7ae4aa679ec993b46536ce695bd8e6347ac97e5/worker_lambda.py:7-10 | the table starts with the given items and an empty history |
| StatusStore.Store.UpdateStatus | cdk.out/asset.f1b97a790fb4dbb8bdd50531c7ae4aa679ec993b46536ce695bd8e6347ac97e5/worker_lambda.py:37-60 | the call changes the table exactly as the update specification says and reports whether it returned |
| WorkerDeployed.Results | cdk.out/asset.f1b97a790fb4dbb8bdd50531c7ae4aa679ec993b46536ce695bd8e6347ac97e5/worker_lambda.py:79-89 | at most one result per resource |
| WorkerDeployed.ResultsConcat | cdk.out/asset.f1b97a790fb4dbb8bdd50531c7ae4aa679ec993b46536ce695bd8e6347ac97e5/worker_lambda.py:80-89 | resources are handled independently: results of two batches concatenate |
| WorkerDeployed.ResultsExact | cdk.out/asset.f1b97a790fb4dbb8bdd50531c7ae4aa679ec993b46536ce695bd8e6347ac97e5/worker_lambda.py:80-89 | the results are exactly the explanations of the resources whose pipeline returned |
| WorkerDeployed.ResultsLoseOnlyFailures | cdk.out/asset.f1b97a790fb4dbb8bdd50531c7ae4aa679ec993b46536ce695bd8e6347ac97e5/worker_lambda.py:87-89 | no resource is lost iff none raised |
| WorkerDeployed.CollectResults | cdk.out/asset.f1b97a790fb4dbb8bdd50531c7ae4aa679ec993b46536ce695bd8e6347ac97e5/worker_lambda.py:79-89 | the per-resource loop with `try`/`except` computes `Results` |
| WorkerDeployed.ProcessScan | cdk.out/asset.f1b97a790fb4dbb8bdd50531c7ae4aa679ec993b46536ce695bd8e6347ac97e5/worker_lambda.py:63-93 | the table changes as specified, and on success the returned list is the one written as COMPLETED |
| WorkerDeployed.Parsed | cdk.out/asset.f1b97a790fb4dbb8bdd50531c7ae4aa679ec993b46536ce695bd8e6347ac97e5/worker_lambda.py:65-77 | the descriptors exist exactly when the plan is read and decoded and `parse_iac_plan` does not raise |
| WorkerDeployed.TryRecord | cdk.out/asset.f1b97a790fb4dbb8bdd50531c7ae4aa679ec993b46536ce695bd8e6347ac97e5/worker_lambda.py:100-107 | the `try` block of one record, as specified |
| WorkerDeployed.TrySpec | cdk.out/asset.f1b97a790fb4dbb8bdd50531c7ae4aa679ec993b46536ce695bd8e6347ac97e5/worker_lambda.py:100-107 | a malformed body fails at once and leaves `scan_id` as it was; otherwise `scan_id` is the record's id, a null id fails with no change, success needs a parsed plan; only the bound id's item changes and writes are appended to the log |
| WorkerDeployed.RecordSpec | cdk.out/asset.f1b97a790fb4dbb8bdd50531c7ae4aa679ec993b46536ce695bd8e6347ac97e5/worker_lambda.py:99-112 | after a malformed record FAILED goes to the id still bound from an earlier record, or nothing happens when none is; a record without a string id raises out of the handler; only the bound id's item changes |
| WorkerDeployed.HandleSpec | cdk.out/asset.f1b97a790fb4dbb8bdd50531c7ae4aa679ec993b46536ce695bd8e6347ac97e5/worker_lambda.py:96-114 | no records change nothing; a record that raises ends the handler there; the log only grows and no item disappears |
| WorkerDeployed.Handler | cdk.out/asset.f1b97a790fb4dbb8bdd50531c7ae4aa679ec993b46536ce695bd8e6347ac97e5/worker_lambda.py:96-114 | the record loop, as written, changes the table and raises as specified |
| WorkerDeployed.WorkingBeforeProcessing | cdk.out/asset.f1b97a790fb4dbb8bdd50531c7ae4aa679ec993b46536ce695bd8e6347ac97e5/worker_lambda.py:102-107 | WORKING is a record's first write; when the table refuses it, nothing else happens |
| WorkerDeployed.CompletedCarriesResults | cdk.out/asset.f1b97a790fb4dbb8bdd50531c7ae4aa679ec993b46536ce695bd8e6347ac97e5/worker_lambda.py:91-107 | a readable plan yields WORKING then COMPLETED with the results |
| WorkerDeployed.EmptyPlanCompletes | cdk.out/asset.f1b97a790fb4dbb8bdd50531c7ae4aa679ec993b46536ce695bd8e6347ac97e5/worker_lambda.py:74-91 | a plan with no resources completes with empty results |
| WorkerDeployed.ReadFailureMarksFailed | cdk.out/asset.f1b97a790fb4dbb8bdd50531c7ae4aa679ec993b46536ce695bd8e6347ac97e5/worker_lambda.py:65-112 | a plan that cannot be read, decoded or parsed yields WORKING then FAILED with the traceback, and the handler goes on |
| WorkerDeployed.UnwalkablePlanMarksFailed | cdk.out/asset.f1b97a790fb4dbb8bdd50531c7ae4aa679ec993b46536ce695bd8e6347ac97e5/worker_lambda.py:73-77 | a document the parser cannot walk marks the scan FAILED with the traceback |
| WorkerDeployed.AcceptingStoreNeverRaises | cdk.out/asset.f1b97a790fb4dbb8bdd50531c7ae4aa679ec993b46536ce695bd8e6347ac97e5/worker_lambda.py:99-112 | with a table that takes every request and string scan ids, every record is handled |
| WorkerDeployed.StaleScanIdMarksCompletedScanFailed | cdk.out/asset.f1b97a790fb4dbb8bdd50531c7ae4aa679ec993b46536ce695bd8e6347ac97e5/worker_lambda.py:111-112 | as written, a malformed record after completed scan A marks A FAILED beside its results |
| WorkerDeployed.CompletedRecordBindsId | cdk.out/asset.f1b97a790fb4dbb8bdd50531c7ae4aa679ec993b46536ce695bd8e6347ac97e5/worker_lambda.py:99-107 | the first record of that case completes scan A and leaves `scan_id` bound to A |
| WorkerDeployed.MissingScanIdAbortsLaterRecords | cdk.out/asset.f1b97a790fb4dbb8bdd50531c7ae4aa679ec993b46536ce695bd8e6347ac97e5/worker_lambda.py:102-112 | as written, a record without `scan_id` raises out of the handler and the next record is not handled |
| WorkerDeployed.HandlerFixed | cdk.out/asset.f1b97a790fb4dbb8bdd50531c7ae4aa679ec993b46536ce695bd8e6347ac97e5/worker_lambda.py:99-112 | the corrected loop changes the table and raises as the corrected specification says |
| WorkerDeployed.FixedBadRecordChangesNothing | cdk.out/asset.f1b97a790fb4dbb8bdd50531c7ae4aa679ec993b46536ce695bd8e6347ac97e5/worker_lambda.py:108-112 | corrected, a record without a usable scan id changes nothing and does not stop the handler |
| WorkerDeployed.FixedRecordTouchesOnlyItsScan | cdk.out/asset.f1b97a790fb4dbb8bdd50531c7ae4aa679ec993b46536ce695bd8e6347ac97e5/worker_lambda.py:106-112 | corrected, a record changes no item but its own |
| WorkerDeployed.FixedOtherScansUntouched | cdk.out/asset.f1b97a790fb4dbb8bdd50531c7ae4aa679ec993b46536ce695bd8e6347ac97e5/worker_lambda.py:99-112 | corrected, only records naming a scan change its item |
| WorkerDeployed.FixedAcceptingStoreNeverRaises | cdk.out/asset.f1b97a790fb4dbb8bdd50531c7ae4aa679ec993b46536ce695bd8e6347ac97e5/worker_lambda.py:99-112 | corrected, a table that takes every request never makes the handler raise |
| WorkerDeployed.FixedHandlesBothInputs | cdk.out/asset.f1b97a790fb4dbb8bdd50531c7ae4aa679ec993b46536ce695bd8e6347ac97e5/worker_lambda.py:99-112 | corrected, scan A stays COMPLETED, and scan B after a bad record completes |
| WorkerDeployed.FixedKeepsCompletedScan | cdk.out/asset.f1b97a790fb4dbb8bdd50531c7ae4aa679ec993b46536ce695bd8e6347ac97e5/worker_lambda.py:99-112 | corrected, a malformed record after scan A leaves A COMPLETED with its results |
| WorkerDeployed.FixedProcessesLaterRecord | cdk.out/asset.f1b97a790fb4dbb8bdd50531c7ae4aa679ec993b46536ce695bd8e6347ac97e5/worker_lambda.py:99-112 | corrected, a record without a scan id does not stop scan B from completing |
| WorkerEarly.Handler | cdk.out/asset.a473e9788f9b65e7526cd1ca3400a2cb9d2f601a6a80519de2887d41f655dfed/worker_lambda.py:53-64 | the record loop changes the table and raises as specified |
| WorkerEarly.RecordEarlySpec | cdk.out/asset.a473e9788f9b65e7526cd1ca3400a2cb9d2f601a6a80519de2887d41f655dfed/worker_lambda.py:55-64 | an unreadable record raises before the `try` with no change; a readable one whose `try` succeeds does not raise; only the record's own item changes and the log only grows |
| WorkerEarly.HandleEarlyConcat | cdk.out/asset.a473e9788f9b65e7526cd1ca3400a2cb9d2f601a6a80519de2887d41f655dfed/worker_lambda.py:55 | records are handled one after another |
| WorkerEarly.UnreadableRecordAbortsRest | cdk.out/asset.a473e9788f9b65e7526cd1ca3400a2cb9d2f601a6a80519de2887d41f655dfed/worker_lambda.py:55-58 | a malformed body or a missing key raises before the `try` and aborts the remaining records |
| WorkerEarly.ReadableRecordLifecycle | cdk.out/asset.a473e9788f9b65e7526cd1ca3400a2cb9d2f601a6a80519de2887d41f655dfed/worker_lambda.py:35-64 | with a table that takes every write, a readable record writes WORKING, then COMPLETED with the results for a readable plan or FAILED with the traceback, and does not raise |
| WorkerEarly.NullScanIdRaises | cdk.out/asset.a473e9788f9b65e7526cd1ca3400a2cb9d2f601a6a80519de2887d41f655dfed/worker_lambda.py:57-64 | a null `scan_id` passes the lookup, but both writes under it fail: nothing changes and the handler raises |
| WorkerEarly.AgreesWithCorrectedDeployed | cdk.out/asset.a473e9788f9b65e7526cd1ca3400a2cb9d2f601a6a80519de2887d41f655dfed/worker_lambda.py:53-64 | on records with a string id and a key, this handler and the corrected deployed one agree |
| Pipeline.EvaluateResource | cdk.out/asset.f1b97a790fb4dbb8bdd50531c7ae4aa679ec993b46536ce695bd8e6347ac97e5/worker_lambda.py:82-86 | for some enumeration of the candidates, the explanation of the scored, correlated findings, or none when correlation raises |
| Pipeline.CorrelateAllPermutation | cdk.out/asset.f1b97a790fb4dbb8bdd50531c7ae4aa679ec993b46536ce695bd8e6347ac97e5/lib/correlation_engine.py:79-97 | correlation maps a permutation of findings to a permutation |
| Pipeline.OrderInsensitive | cdk.out/asset.f1209f015e053cc7cb1c11dac54b7c93ed6f3cd84d680d499939d46d487cb1ca/lib/adapters/aggregator.py:28 | the candidate order changes neither whether a resource is scored, nor its score, nor its findings as a multiset |
| Pipeline.PublicBucketShodanMedium | cdk.out/asset.f1b97a790fb4dbb8bdd50531c7ae4aa679ec993b46536ce695bd8e6347ac97e5/worker_lambda.py:82-85 | a public-ACL bucket with one MEDIUM shodan finding is escalated to HIGH and scored MEDIUM (4.2) |
| Pipeline.LoneShodanHighBatch | cdk.out/asset.f1b97a790fb4dbb8bdd50531c7ae4aa679ec993b46536ce695bd8e6347ac97e5/lib/risk_scoring.py:20-49 | a batch of one HIGH shodan finding scores MEDIUM |
| Pipeline.PublicBucketEscalates | cdk.out/asset.f1b97a790fb4dbb8bdd50531c7ae4aa679ec993b46536ce695bd8e6347ac97e5/lib/correlation_engine.py:37-85 | that finding is escalated to HIGH with the public flag |
| Pipeline.PublicMediumBecomesHigh | cdk.out/asset.f1b97a790fb4dbb8bdd50531c7ae4aa679ec993b46536ce695bd8e6347ac97e5/lib/correlation_engine.py:37-85 | a public context lifts a MEDIUM finding to HIGH and flags it public |
| Pipeline.BadPortResourceOmitted | cdk.out/asset.f1b97a790fb4dbb8bdd50531c7ae4aa679ec993b46536ce695bd8e6347ac97e5/worker_lambda.py:81-89 | a resource whose port list holds a non-number is omitted from the results, and every result comes from a resource that evaluates |
| CiGate.RankOf | cicd/ta_iac_runner.py:22 | the rank table, 1 for an unknown name |
| CiGate.SummarizeResults | cicd/ta_iac_runner.py:99-117 | the loop computes `Summarize` |
| CiGate.MaxRank | cicd/ta_iac_runner.py:113 | the highest rank among the entries |
| CiGate.WorstFromIsMax | cicd/ta_iac_runner.py:109-114 | the fold ends on a known severity whose rank is the maximum of the start and the entries |
| CiGate.SummaryIsWorst | cicd/ta_iac_runner.py:102-117 | always a known severity; LOW for absent, null or empty results; otherwise of exactly the highest rank among the entries, so no entry ranks above it |
| CiGate.SummaryIgnoresOrder | cicd/ta_iac_runner.py:109-114 | the summary depends only on the multiset of results |
| CiGate.MaxRankBound | cicd/ta_iac_runner.py:109-114 | of two entry lists with the same multiset, one's highest rank is at most the other's |
| CiGate.UnknownNeverWins | cicd/ta_iac_runner.py:109-114 | results whose severities are all unknown names summarise to LOW |
| CiGate.GateExit | cicd/ta_iac_runner.py:157-162 | exit 2 iff the severity's rank reaches the block severity's rank (3 when unknown), else 0 |
| CiGate.BlockSeverity | cicd/ta_iac_runner.py:20 | HIGH when unset; otherwise the setting upper-cased, same length, without lower-case letters |
| CiGate.ExitCode | cicd/ta_iac_runner.py:128-162 | exit 1 when submitting or polling raised, and 1 when `results_json` is null, which `generate_report` iterates and raises on; otherwise 0 or 2 |
| CiGate.SummarizeServed | cicd/ta_iac_runner.py:102-114 | on the served text: LOW exactly when `results_json` is absent or empty, otherwise AttributeError from the first character's `.get` |
| CiGate.ServedExitCode | cicd/ta_iac_runner.py:147-162 | exit 1 when polling or the summary raised, else the gate on LOW |
| CiGate.StoredResultsExitOne | cicd/ta_iac_runner.py:102-154 | as written, any non-empty stored `results_json`, `"[]"` included, makes the runner exit 1 |
| CiGate.ServedEmptyListContrast | cicd/ta_iac_runner.py:102-162 | the served `"[]"` exits 1 while the decoded empty list passes the default gate |
| CiGate.DecodedResultsReachGate | cicd/ta_iac_runner.py:128-162 | with decoded results the exit code is 0 or 2, and 2 exactly when the summary reaches the block severity; a null `results_json` exits 1 |
| CiGate.DefaultBlocksHigh | cicd/ta_iac_runner.py:157 | with no setting the build fails exactly on HIGH or CRITICAL |
| CiGate.UnknownBlockActsAsHigh | cicd/ta_iac_runner.py:157 | an unknown block severity behaves like HIGH |
| CiGate.GateMonotone | cicd/ta_iac_runner.py:157 | a worse summary never turns a failing build into a passing one |
| CiGate.ColorFrames | cicd/ta_iac_runner.py:28-37 | the coloured text is the severity's code, the text and the reset code; an unknown severity has an empty code |
| CiGate.ColorCode | cicd/ta_iac_runner.py:30-36 | a code exactly for the four severities and END, each an escape sequence `ESC [ … m` |
| CiGate.Color | cicd/ta_iac_runner.py:28-37 | the severity's code (empty when unknown), then the text, then the reset code |
| CiGate.ColorCodesDistinct | cicd/ta_iac_runner.py:30-35 | different severities get different codes |
| Multisets.MultisetRemove | cdk.out/asset.f1b97a790fb4dbb8bdd50531c7ae4aa679ec993b46536ce695bd8e6347ac97e5/lib/risk_scoring.py:31 | removing position k removes one occurrence of that element |
| Multisets.PermutationSplit | cdk.out/asset.f1b97a790fb4dbb8bdd50531c7ae4aa679ec993b46536ce695bd8e6347ac97e5/lib/risk_scoring.py:31 | the head of a permutation occurs in the other sequence, and the rests are permutations |
| Multisets.MapIndex | cdk.out/asset.f1b97a790fb4dbb8bdd50531c7ae4aa679ec993b46536ce695bd8e6347ac97e5/lib/correlation_engine.py:79-97 | the mapped sequence has one image per element, in order |
| Multisets.MapConcat | cdk.out/asset.f1b97a790fb4dbb8bdd50531c7ae4aa679ec993b46536ce695bd8e6347ac97e5/lib/correlation_engine.py:79-97 | mapping distributes over concatenation |
| Multisets.MapAround | cdk.out/asset.f1b97a790fb4dbb8bdd50531c7ae4aa679ec993b46536ce695bd8e6347ac97e5/lib/correlation_engine.py:79-97 | the images split around one position like the elements |
| Multisets.MapPermutation | cdk.out/asset.f1b97a790fb4dbb8bdd50531c7ae4aa679ec993b46536ce695bd8e6347ac97e5/lib/correlation_engine.py:79-97 | mapping a permutation gives a permutation of the images |

## Left out

- `WeightedScoring.Score`: the mean is exact, while `calculate_risk` accumulates it in IEEE doubles. Take the findings MEDIUM abuseipdb, HIGH otx and HIGH shodan. Their exact mean is 12.0 / 2.4 = 5.0, so the model gives HIGH. In doubles the confidences add up to 2.4000000000000004, the mean falls just below 5, and the code gives MEDIUM. In the order abuseipdb, shodan, otx the confidences add up to exactly 2.4, and the code gives HIGH. So at a threshold the code's result can depend on the order of the findings. `WeightedScoring.Classify`, `WeightedScoring.ScorePermutation`, `Pipeline.OrderInsensitive` and `CorrelationFull.CalculateRisk` (the same formula in the 7c951 `correlation_engine.py`, lines 134-153) state properties of the exact mean, not of the floating-point code.
- Floating point: the factors, confidences and averages are kept as exact tenths, where the program uses IEEE doubles. The `round(avg, 2)` of `average_score` and the `.2f` formatting of the factor are not modelled beyond one decimal place.
- `CorrelationFull.EvaluateResourceRisk`: the mean score is kept as a total and a count, not as a rounded float.
- Text rendering: `str(attrs)`, `str(tags)`, `str(reputation)`, the tracebacks and the evidence strings are opaque texts. Only the substring tests the code applies to them are modelled. `int(s)` does not model surrounding whitespace or underscores in digit strings.
- Python values in findings: a `risk` or `risk_level` holding `None` or a non-string (an `AttributeError` on `.upper()`) is treated as an absent key.
- Port values: a port entry that is a float or a bool is held as what `int()` makes of it (`ItemNumber`), and null, an object or a list as a value `int()` rejects with `TypeError`. A lone float as the whole `port` value is left out: it is not iterable, and both engines would raise `TypeError` on it. A lone object iterates as the list of its keys. JSON's `NaN` and `Infinity` are left out.
- `CiGate.SummaryIsWorst`: a result entry whose `risk_score` is null, or that is not a dictionary, is not modelled.
- A null `name` is not distinguished from an absent one. In the sensitivity test this changes nothing: neither `str(None)` nor `""` contains `db` or `backup`. `CorrelationFull.EvaluateResourceRisk` reports `resource_name` as `unknown` for both, where the code reports `None` for a present null `name`.
- `Aggregator.CheckResource`: the per-candidate `except` and the one around OTX are unreachable, because the adapters absorb every exception. The model has no exceptions there. The iteration order of `set(ips)` is left open, and only the existence of some enumeration is stated.
- Environment and configuration: the adapters' API keys, which come from the environment, are parameters. The aggregator's cache table is stored but never read by the code, and is left out.
- I/O and services: HTTP, boto3, S3, DynamoDB's wire format, JSON encoding and logging are left out. `json.dumps(results)` is modelled by storing the results themselves.
- The deployed snapshot's `lib/explanation_builder.py` is not part of this model. `Explanation.BuildExplanation` follows the earlier snapshot's `build_explanation`, which the deployed worker imports under the same name and calls with the same arguments.
- The CI runner's `submit_plan`, `poll` and `generate_report` do HTTP and file I/O, and are left out. For the gate, their failure is one "raised" outcome (exit 1). The one report failure the model does tell apart is a present but null `results_json`: `summarize_results` reads it as no results, but `generate_report` iterates `None` and raises TypeError, so `CiGate.ExitCode` is 1 there. A report entry whose `findings` items are not dictionaries is not modelled.
- `submitter_lambda.py`, `infrastructure/` (the CDK app and stack) and the integration tests under `tests/` are outside the scan pipeline, and are left out.
- A public bucket with one MEDIUM shodan finding: correlation escalates it to HIGH, and the weighted scorer then averages 6 × 0.7 / 1.0 = 4.2, which is MEDIUM (`Pipeline.PublicBucketShodanMedium`).
- `Strings.Upper`/`Strings.Lower`: the case mapping is ASCII-only. Python's `str.upper()` and `str.lower()` follow Unicode, so `"hıgh".upper()` is `"HIGH"` and `"ß".upper()` is `"SS"`, which changes the length. In the model such a level stays unknown and ranks 1. Non-ASCII letters in levels, tags, names and settings are therefore not modelled.
- `Parser.ParseIacPlan`: a truthy `after` that is not an object is not modelled. The parser passes it on as the attributes, and the engines' `.get` on it would raise. Non-string values of `address`, `type` and `name` are not modelled either.

## Findings

| source | as written | input that shows it | evidently intended | confidence | as-written member | corrected member |
|---|---|---|---|---|---|---|
| cdk.out/asset.f1b97a790fb4dbb8bdd50531c7ae4aa679ec993b46536ce695bd8e6347ac97e5/worker_lambda.py:111-112 | `'scan_id' in locals()` is still true for a record whose body cannot be read, because the variable survives from the previous loop iteration | records `[{"scan_id":"A","s3_key":"k"}, "not json"]` with a readable plan: scan A is COMPLETED, then overwritten to FAILED with the second record's traceback | mark FAILED only the scan that the failing record itself names | not executed | WorkerDeployed.StaleScanIdMarksCompletedScanFailed | WorkerDeployed.FixedHandlesBothInputs |
| cdk.out/asset.f1b97a790fb4dbb8bdd50531c7ae4aa679ec993b46536ce695bd8e6347ac97e5/worker_lambda.py:102-112 | a record without `scan_id` binds `scan_id = None`; the WORKING write fails, and the `except` branch's FAILED write under `None` raises out of the handler | records `[{"s3_key":"k"}, {"scan_id":"B","s3_key":"k"}]`: the handler raises on the first, and scan B is never processed | skip a record that names no scan, and carry on with the rest | not executed | WorkerDeployed.MissingScanIdAbortsLaterRecords | WorkerDeployed.FixedAcceptingStoreNeverRaises |
| cicd/ta_iac_runner.py:102-114 | `summarize_results` iterates `data["results_json"]` as a list, but the status endpoint serves the stored text (`json.dumps` of the results, `'[]'` at submission), so the loop walks characters and `'['.get` raises; the main block exits 1 | any completed scan, even one with no results: `results_json` is `"[]"` | decode `results_json` with `json.loads` before summarising, so the gate's 0 or 2 is reached | not executed | CiGate.StoredResultsExitOne | CiGate.DecodedResultsReachGate |
