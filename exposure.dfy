/**
 * The resource context shared by the two context-aware correlation engines:
 * whether a resource is public, whether it looks sensitive, which sensitive
 * ports it exposes, and the exposure factor and flags derived from these.
 */
module Exposure {
  import opened Wrappers
  import opened Strings
  import opened Levels
  import opened Rounding
  import opened Resources
  import Escalation

  /** The ports whose exposure counts: ssh, http, https, rdp and mysql. */
  predicate IsSensitivePort(n: int) {
    n == 22 || n == 80 || n == 443 || n == 3389 || n == 3306
  }

  /** Public: `public` or `associate_public_ip_address` is True, a public ACL, or an open CIDR anywhere in the attributes. */
  predicate IsPublic(attrs: Attributes)
    ensures PublicAcl(attrs) || IsTrue(attrs.public) || IsTrue(attrs.associatePublicIp) ==> IsPublic(attrs)
  {
    IsTrue(attrs.public) || IsTrue(attrs.associatePublicIp) || PublicAcl(attrs) || Contains(attrs.text, "0.0.0.0/0")
  }

  /** The name as `str(attrs.get("name", ""))` renders it, up to the null case (neither renders a keyword). */
  function NameText(attrs: Attributes): string {
    attrs.name.GetOr("")
  }

  /** Sensitive: the tags mention prod or critical, or the name mentions db or backup, ignoring case. */
  predicate IsSensitive(attrs: Attributes)
    ensures !Truthy(attrs.name) ==>
      (IsSensitive(attrs) <==> Contains(Lower(attrs.tagsText), "prod") || Contains(Lower(attrs.tagsText), "critical"))
  {
    Contains(Lower(attrs.tagsText), "prod") || Contains(Lower(attrs.tagsText), "critical") ||
    Contains(Lower(NameText(attrs)), "db") || Contains(Lower(NameText(attrs)), "backup")
  }

  /** The open-CIDR test looks at the whole rendering: `0.0.0.0/0` anywhere in it makes the resource public. */
  lemma {:induction false} OpenCidrIsPublic(attrs: Attributes, pre: string, post: string)
    requires attrs.text == pre + "0.0.0.0/0" + post
    ensures IsPublic(attrs)
  {
    ContainsInfix(pre, "0.0.0.0/0", post);
  }

  /** The tags and the name are lower-cased before the search, so their case does not matter. */
  lemma {:induction false} SensitiveIgnoresCase(attrs: Attributes)
    ensures IsSensitive(attrs.(tagsText := Upper(attrs.tagsText), name := Some(Upper(NameText(attrs))))) == IsSensitive(attrs)
  {
    LowerOfUpper(attrs.tagsText);
    LowerOfUpper(NameText(attrs));
  }

  datatype Context = Context(public: bool, sensitive: bool, exposedPorts: seq<int>)

  /** `exposure_factor` in tenths: 1.0, plus 0.7 if public, 0.4 if sensitive, 0.3 if ports are exposed. */
  function FactorTenths(ctx: Context): (f: nat)
    ensures 10 <= f <= 24
    ensures f > 10 <==> ctx.public || ctx.sensitive || ctx.exposedPorts != []
  {
    10 + (if ctx.public then 7 else 0) + (if ctx.sensitive then 4 else 0) + (if ctx.exposedPorts != [] then 3 else 0)
  }

  /** The three flag names in the order the engines test their signals. */
  const FlagNames: seq<string> := ["public", "sensitive", "exposed_ports"]

  /** A flag name's place in `FlagNames`. */
  function FlagPosition(name: string): nat {
    if name == "public" then 0 else if name == "sensitive" then 1 else 2
  }

  /**
   * `context_flags`: the names of the signals that hold, each once, in the
   * fixed order public, sensitive, exposed_ports.
   */
  function Flags(ctx: Context): (flags: seq<string>)
    ensures "public" in flags <==> ctx.public
    ensures "sensitive" in flags <==> ctx.sensitive
    ensures "exposed_ports" in flags <==> ctx.exposedPorts != []
    ensures |flags| == (if ctx.public then 1 else 0) + (if ctx.sensitive then 1 else 0) + (if ctx.exposedPorts != [] then 1 else 0)
    ensures flags == [] <==> FactorTenths(ctx) == 10
    ensures ctx.public ==> flags[0] == "public"
  {
    (if ctx.public then ["public"] else []) +
    (if ctx.sensitive then ["sensitive"] else []) +
    (if ctx.exposedPorts != [] then ["exposed_ports"] else [])
  }

  /**
   * The flags are names from `FlagNames`, each at most once, in the order of
   * that list: together with the membership clauses of `Flags` this fixes
   * the list exactly.
   */
  lemma {:induction false} FlagsInOrder(ctx: Context)
    ensures forall i :: 0 <= i < |Flags(ctx)| ==> Flags(ctx)[i] in FlagNames
    ensures forall i, j :: 0 <= i < j < |Flags(ctx)| ==> FlagPosition(Flags(ctx)[i]) < FlagPosition(Flags(ctx)[j])
  {
    var a := if ctx.public then ["public"] else [];
    var b := if ctx.sensitive then ["sensitive"] else [];
    var c := if ctx.exposedPorts != [] then ["exposed_ports"] else [];
    assert Flags(ctx) == a + b + c;
  }

  /** The block that sums the exposure factor and collects the flags. */
  method ContextIntensity(ctx: Context) returns (exposureFactor: nat, contextFlags: seq<string>)
    ensures exposureFactor == FactorTenths(ctx)
    ensures contextFlags == Flags(ctx)
  {
    exposureFactor := 10;
    if ctx.public {
      exposureFactor := exposureFactor + 7;
    }
    if ctx.sensitive {
      exposureFactor := exposureFactor + 4;
    }
    if ctx.exposedPorts != [] {
      exposureFactor := exposureFactor + 3;
    }
    contextFlags := [];
    if ctx.public {
      contextFlags := contextFlags + ["public"];
    }
    if ctx.sensitive {
      contextFlags := contextFlags + ["sensitive"];
    }
    if ctx.exposedPorts != [] {
      contextFlags := contextFlags + ["exposed_ports"];
    }
  }

  /** `f"{factor:.2f}"` for a factor with one decimal place. */
  function FactorText(tenths: nat): string {
    NatToString(tenths / 10) + "." + [Digit(tenths % 10)] + "0"
  }

  /**
   * The escalated level of a finding: `escalate_risk(lvl, factor - 1)`. The
   * offset is never negative, so the table lookup never fails.
   */
  function Escalated(level: string, ctx: Context): (s: Severity)
    ensures Rank(s) >= Escalation.CurrentRank(level)
  {
    Escalation.NonNegativeFactorNeverLowers(level, FactorTenths(ctx) - 10);
    Escalation.EscalateRisk(level, FactorTenths(ctx) - 10).value
  }

  /** Whether the context raises the rank at all: public, or sensitive together with exposed ports. */
  predicate Bumps(ctx: Context) {
    ctx.public || (ctx.sensitive && ctx.exposedPorts != [])
  }

  /**
   * The offsets 0.3 and 0.4 round away and every other non-zero offset rounds
   * to one step: the level rises by exactly one step, capped at CRITICAL,
   * when the context bumps, and otherwise stays where it was.
   */
  lemma {:induction false} EscalatedStep(level: string, ctx: Context)
    ensures Rank(Escalated(level, ctx)) ==
      if Bumps(ctx) then (if Escalation.CurrentRank(level) < 4 then Escalation.CurrentRank(level) + 1 else 4)
      else Escalation.CurrentRank(level)
  {
    var c := Escalation.CurrentRank(level);
    var x := 10 * c + FactorTenths(ctx) - 10;
    if Bumps(ctx) {
      assert 7 <= FactorTenths(ctx) - 10 <= 14;
      RoundHalfEvenUnique(x, c + 1);
    } else {
      assert FactorTenths(ctx) - 10 <= 4;
      RoundHalfEvenUnique(x, c);
    }
  }

  /** `f.get("evidence", "N/A")` */
  function EvidenceText(f: Finding): string {
    f.evidence.GetOr("N/A")
  }

  /** `int(p)` on one port entry: a string must be an optionally signed run of digits. */
  function ItemValue(item: PortItem): (r: Result<int>)
    ensures r.Raise? ==> (r.error == ValueError <==> item.ItemText?)
    ensures r.Raise? ==> (r.error == TypeError <==> item.ItemOther?)
    ensures item.ItemInt? ==> r == Ok(item.n)
    ensures item.ItemNumber? ==> r == Ok(item.truncated)
    ensures item.ItemText? ==> (r.Ok? <==> ParseInt(item.s).Some?)
  {
    match item
    case ItemInt(n) => Ok(n)
    case ItemNumber(n) => Ok(n)
    case ItemText(s) =>
      (match ParseInt(s)
       case Some(n) => Ok(n)
       case None => Raise(ValueError))
    case ItemOther => Raise(TypeError)
  }

  /** The entries the port loop iterates: a lone int or string is wrapped in a list. */
  function AsItems(p: PortSetting): seq<PortItem> {
    match p
    case PortNull => []
    case PortInt(n) => [ItemInt(n)]
    case PortText(s) => [ItemText(s)]
    case PortList(items) => items
  }

  /** Python truthiness of a `port` value. */
  predicate PortTruthy(p: PortSetting) {
    match p
    case PortNull => false
    case PortInt(n) => n != 0
    case PortText(s) => s != ""
    case PortList(items) => items != []
  }

  /** Whether the loop gets past an entry: it converts, or it fails with a ValueError that is skipped. */
  predicate Passes(item: PortItem, skipValueErrors: bool) {
    ItemValue(item).Ok? || (skipValueErrors && ItemValue(item).error == ValueError)
  }

  /** The outcome of the loop over later entries, behind the ports already collected. */
  function Prepend(exposed: seq<int>, r: Result<seq<int>>): Result<seq<int>> {
    match r
    case Ok(v) => Ok(exposed + v)
    case Raise(e) => Raise(e)
  }

  lemma {:induction false} PrependLaws(a: seq<int>, b: seq<int>, r: Result<seq<int>>)
    ensures Prepend([], r) == r
    ensures Prepend(a, Prepend(b, r)) == Prepend(a + b, r)
  {
    if r.Ok? {
      assert [] + r.value == r.value;
      assert a + (b + r.value) == (a + b) + r.value;
    }
  }

  /**
   * The port loop: every entry that converts to a sensitive port is kept, in
   * order; the first exception that is not skipped ends it.
   */
  function ScanItems(items: seq<PortItem>, skipValueErrors: bool): (r: Result<seq<int>>)
    ensures r.Raise? ==> r.error == TypeError || (!skipValueErrors && r.error == ValueError)
  {
    if items == [] then Ok([])
    else match ItemValue(items[0])
      case Raise(e) =>
        if skipValueErrors && e == ValueError then ScanItems(items[1..], skipValueErrors) else Raise(e)
      case Ok(n) => Prepend(if IsSensitivePort(n) then [n] else [], ScanItems(items[1..], skipValueErrors))
  }

  /** The loop completes exactly when every entry passes. */
  lemma {:induction false} ScanItemsOk(items: seq<PortItem>, skip: bool)
    ensures ScanItems(items, skip).Ok? <==> forall i :: 0 <= i < |items| ==> Passes(items[i], skip)
  {
    if items != [] {
      ScanItemsOk(items[1..], skip);
      assert forall i :: 0 < i < |items| ==> items[i] == items[1..][i - 1];
    }
  }

  /** The collected ports are exactly the sensitive ports the entries convert to. */
  lemma {:induction false} ScanItemsCollects(items: seq<PortItem>, skip: bool)
    requires ScanItems(items, skip).Ok?
    ensures forall x :: x in ScanItems(items, skip).value <==>
      exists i :: 0 <= i < |items| && ItemValue(items[i]) == Ok(x) && IsSensitivePort(x)
  {
    if items != [] {
      ScanItemsCollects(items[1..], skip);
      assert forall i :: 0 < i < |items| ==> items[i] == items[1..][i - 1];
      var r := ScanItems(items, skip);
      forall x | x in r.value
        ensures exists i :: 0 <= i < |items| && ItemValue(items[i]) == Ok(x) && IsSensitivePort(x)
      {
        if ItemValue(items[0]) == Ok(x) && IsSensitivePort(x) {
        } else {
          var j :| 0 <= j < |items[1..]| && ItemValue(items[1..][j]) == Ok(x) && IsSensitivePort(x);
          assert items[j + 1] == items[1..][j];
        }
      }
    }
  }

  /** A float or bool entry counts as the int it converts to: `[22.0]` and `[22.9]` expose port 22. */
  lemma {:induction false} NumberEntryExposes(skip: bool)
    ensures ScanItems([ItemNumber(22)], skip) == Ok([22])
  {
    assert [ItemNumber(22)][1..] == [];
    assert ScanItems([ItemNumber(22)], skip) == Prepend([22], ScanItems([], skip));
    assert [22] + [] == [22];
  }
}
