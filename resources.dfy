/**
 * The records that flow through the scan pipeline: resource attributes as the
 * correlation code reads them, resource descriptors, and threat findings.
 * A Python dict key that is absent is `None`; a string value is `Some(s)`.
 */
module Resources {
  import opened Wrappers

  /** A JSON scalar as read from a plan attribute. */
  datatype Scalar = Bool(b: bool) | Int(n: int) | Text(s: string) | Null

  /** `attrs.get(key) is True` */
  predicate IsTrue(v: Option<Scalar>) {
    v == Some(Bool(true))
  }

  /** Python truthiness of an optional string: present and non-empty. */
  predicate Truthy(v: Option<string>) {
    v.Some? && v.value != ""
  }

  /** Python's `a or b` on optional strings. */
  function Or(a: Option<string>, b: Option<string>): (r: Option<string>)
    ensures Truthy(a) ==> r == a
    ensures !Truthy(a) ==> r == b
    ensures r == a || r == b
    ensures Truthy(r) <==> Truthy(a) || Truthy(b)
  {
    if Truthy(a) then a else b
  }

  /** `(a or b) or c` and `a or (b or c)` agree, so a chain of `or`s reads as the first truthy operand. */
  lemma {:induction false} OrAssociative(a: Option<string>, b: Option<string>, c: Option<string>)
    ensures Or(Or(a, b), c) == Or(a, Or(b, c))
    ensures Truthy(a) ==> Or(Or(a, b), c) == a
    ensures !Truthy(a) && Truthy(b) ==> Or(Or(a, b), c) == b
    ensures !Truthy(a) && !Truthy(b) ==> Or(Or(a, b), c) == c
  {
  }

  /** An f-string renders a missing value as `None`. */
  function Show(v: Option<string>): string {
    match v
    case Some(s) => s
    case None => "None"
  }

  /**
   * One entry of a `port` list: an int; a string; a float or a bool, held as
   * what `int()` makes of it (the float truncated toward zero, a bool as 0 or
   * 1); or a value `int()` rejects with TypeError (null, an object, a list).
   */
  datatype PortItem = ItemInt(n: int) | ItemText(s: string) | ItemNumber(truncated: int) | ItemOther

  /**
   * The value of the `port` attribute: null, a single int or string (a bool
   * is an int), or a list. An object iterates as the list of its keys.
   */
  datatype PortSetting = PortNull | PortInt(n: int) | PortText(s: string) | PortList(items: seq<PortItem>)

  /**
   * The attributes of a resource that the pipeline reads. `publicIp`, `cidrBlock`
   * and `endpoint` are `None` when absent or null. `tagsText` stands for
   * `str(attrs.get("tags", []))`, `text` for `str(attrs)`.
   */
  datatype Attributes = Attributes(
    public: Option<Scalar>,
    associatePublicIp: Option<Scalar>,
    acl: Option<Scalar>,
    publicIp: Option<string>,
    cidrBlock: Option<string>,
    endpoint: Option<string>,
    port: Option<PortSetting>,
    tagsText: string,
    name: Option<string>,
    text: string)

  /** The `{}` default. */
  const EmptyAttributes: Attributes := Attributes(None, None, None, None, None, None, None, "[]", None, "{}")

  /** A dict is falsy exactly when it is empty, that is when it prints as `{}`. */
  predicate IsEmptyDict(a: Attributes) {
    a.text == "{}"
  }

  /** `acl in ("public-read", "public-read-write")` */
  predicate PublicAcl(a: Attributes) {
    a.acl == Some(Text("public-read")) || a.acl == Some(Text("public-read-write"))
  }

  /** A resource descriptor as the plan parser produces it. */
  datatype Resource = Resource(resourceId: string, rtype: Option<string>, name: Option<string>, attributes: Attributes)

  /** The key under which an adapter records the indicator it looked up. */
  datatype Subject = IpSubject(ip: string) | HostSubject(host: string) | IndicatorSubject(indicator: string) | NoSubject

  /**
   * A finding: the keys the adapters write (`feed`, the subject, `risk`,
   * `evidence`) and the keys correlation adds (`risk_level`, `details`,
   * `context_flags`).
   */
  datatype Finding = Finding(
    feed: Option<string>,
    subject: Subject,
    risk: Option<string>,
    evidence: Option<string>,
    riskLevel: Option<string>,
    details: Option<string>,
    contextFlags: Option<seq<string>>)

  /** A finding as an adapter creates it. */
  function RawFinding(feed: string, subject: Subject, risk: string, evidence: string): Finding {
    Finding(Some(feed), subject, Some(risk), Some(evidence), None, None, None)
  }

  /**
   * The four ways the components read the level of a finding: the `risk` or
   * the `risk_level` key first, falling back to the other when the first key
   * is absent (`KeyFirst`) or when its value is falsy (`TruthyFirst`), and to
   * `"LOW"` when the fallback key is absent too.
   */
  datatype LevelChoice = RiskKeyFirst | LevelKeyFirst | RiskTruthyFirst | LevelTruthyFirst

  function ChosenLevel(choice: LevelChoice, f: Finding): string {
    match choice
    case RiskKeyFirst => if f.risk.Some? then f.risk.value else f.riskLevel.GetOr("LOW")
    case LevelKeyFirst => if f.riskLevel.Some? then f.riskLevel.value else f.risk.GetOr("LOW")
    case RiskTruthyFirst => if Truthy(f.risk) then f.risk.value else f.riskLevel.GetOr("LOW")
    case LevelTruthyFirst => if Truthy(f.riskLevel) then f.riskLevel.value else f.risk.GetOr("LOW")
  }

  /**
   * The four readings differ only when both keys are present: with neither the
   * level is LOW, with exactly one truthy key it is that key's value, and with
   * both truthy the preferred key wins.
   */
  lemma {:induction false} ChosenLevelCases(choice: LevelChoice, f: Finding)
    ensures f.risk.None? && f.riskLevel.None? ==> ChosenLevel(choice, f) == "LOW"
    ensures Truthy(f.risk) && f.riskLevel.None? ==> ChosenLevel(choice, f) == f.risk.value
    ensures Truthy(f.riskLevel) && f.risk.None? ==> ChosenLevel(choice, f) == f.riskLevel.value
    ensures Truthy(f.risk) && Truthy(f.riskLevel) ==>
      ChosenLevel(choice, f) == if choice.RiskKeyFirst? || choice.RiskTruthyFirst? then f.risk.value else f.riskLevel.value
  {
  }

  /** The evidence of an adapter's degraded mode. */
  const NoKeyEvidence: string := "no-api-key (dev)"
}
