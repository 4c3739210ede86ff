/**
 * The plan parser (`parse_iac_plan`): a Terraform plan document becomes an
 * ordered list of resource descriptors, from `resource_changes` or, failing
 * that, from top-level `aws_*` / `azurerm_*` objects. A document whose shape
 * the code cannot walk raises.
 */
module Parser {
  import opened Wrappers
  import opened Strings
  import opened Resources

  /** The `change` object of a resource change; `after` is `None` when absent or null. */
  datatype Change = Change(after: Option<Attributes>)

  /** One entry of `resource_changes`; `change` is `None` when absent, null or otherwise falsy. */
  datatype ResourceChange = ResourceChange(
    address: Option<string>,
    rtype: Option<string>,
    name: Option<string>,
    change: Option<Change>,
    after: Option<Attributes>)

  /** A top-level value of the plan: an object, or anything else. */
  datatype TopValue = Object(attrs: Attributes) | NonObject

  /**
   * A plan the code can walk: the list under `resource_changes` (empty when
   * the key is absent) and every top-level entry in document order.
   */
  datatype Plan = Plan(resourceChanges: seq<ResourceChange>, topLevel: seq<(string, TopValue)>)

  /**
   * The `change` value of a decoded entry: falsy (absent, null, `{}`, `0`,
   * `""`, ...), an object, or a truthy value that is not an object, whose
   * `.get` raises `AttributeError`.
   */
  datatype ChangeValue = ChangeFalsy | ChangeObject(after: Option<Attributes>) | ChangeOther

  /** One element of the decoded `resource_changes` list: an object, or any other JSON value (no `.get`). */
  datatype Entry =
    | EntryObject(address: Option<string>, rtype: Option<string>, name: Option<string>, change: ChangeValue, after: Option<Attributes>)
    | EntryOther

  /**
   * The value under `resource_changes`: absent (`get` gives `[]`), a list, an
   * empty string or object (the loop runs zero times), null, a number or a bool
   * (not iterable: `TypeError`), or a non-empty string or object, whose
   * characters or keys have no `.get` (`AttributeError`).
   */
  datatype ChangesValue = ChangesAbsent | ChangesList(entries: seq<Entry>) | ChangesEmpty | ChangesNotIterable | ChangesOther

  /** The decoded JSON document: an object, or any other value, which has no `.get`. */
  datatype Document = ObjectDocument(resourceChanges: ChangesValue, topLevel: seq<(string, TopValue)>) | NonObjectDocument

  /** `rc.get('change') or {}` followed by `.get('after')`. */
  function DecodeChange(c: ChangeValue): (r: Result<Option<Change>>)
    ensures r.Raise? <==> c.ChangeOther?
    ensures r.Raise? ==> r.error == AttributeError
    ensures c.ChangeObject? ==> r == Ok(Some(Change(c.after)))
  {
    match c
    case ChangeFalsy => Ok(None)
    case ChangeObject(after) => Ok(Some(Change(after)))
    case ChangeOther => Raise(AttributeError)
  }

  /** The `.get` calls on one entry. */
  function DecodeEntry(e: Entry): (r: Result<ResourceChange>)
    ensures r.Raise? <==> e.EntryOther? || e.change.ChangeOther?
    ensures r.Raise? ==> r.error == AttributeError
    ensures r.Ok? ==> r.value.address == e.address && r.value.rtype == e.rtype && r.value.name == e.name && r.value.after == e.after
  {
    match e
    case EntryOther => Raise(AttributeError)
    case EntryObject(address, rtype, name, change, after) =>
      match DecodeChange(change)
      case Ok(c) => Ok(ResourceChange(address, rtype, name, c, after))
      case Raise(err) => Raise(err)
  }

  /** The loop over the list reaches its end exactly when no entry raises. */
  function DecodeEntries(es: seq<Entry>): (r: Result<seq<ResourceChange>>)
    ensures r.Ok? <==> forall i :: 0 <= i < |es| ==> DecodeEntry(es[i]).Ok?
    ensures r.Raise? ==> r.error == AttributeError
    ensures r.Ok? ==> |r.value| == |es| && forall i :: 0 <= i < |es| ==> r.value[i] == DecodeEntry(es[i]).value
  {
    if es == [] then Ok([])
    else
      assert forall i :: 0 < i < |es| ==> es[i] == es[1..][i - 1];
      match DecodeEntry(es[0])
      case Raise(err) => Raise(err)
      case Ok(rc) =>
        match DecodeEntries(es[1..])
        case Raise(err) => Raise(err)
        case Ok(rest) => Ok([rc] + rest)
  }

  /** The shapes the parser can walk, and the exception raised on the others. */
  function Decode(doc: Document): (r: Result<Plan>)
    ensures doc.NonObjectDocument? ==> r == Raise(AttributeError)
    ensures doc.ObjectDocument? && doc.resourceChanges.ChangesNotIterable? ==> r == Raise(TypeError)
    ensures doc.ObjectDocument? && doc.resourceChanges.ChangesOther? ==> r == Raise(AttributeError)
    ensures doc.ObjectDocument? && (doc.resourceChanges.ChangesAbsent? || doc.resourceChanges.ChangesEmpty?) ==>
      r == Ok(Plan([], doc.topLevel))
    ensures doc.ObjectDocument? && doc.resourceChanges.ChangesList? ==>
      (r.Ok? <==> forall i :: 0 <= i < |doc.resourceChanges.entries| ==> DecodeEntry(doc.resourceChanges.entries[i]).Ok?)
    ensures r.Raise? && !(doc.ObjectDocument? && doc.resourceChanges.ChangesNotIterable?) ==> r.error == AttributeError
    ensures r.Ok? ==> doc.ObjectDocument? && r.value.topLevel == doc.topLevel
  {
    match doc
    case NonObjectDocument => Raise(AttributeError)
    case ObjectDocument(changes, top) =>
      match changes
      case ChangesAbsent => Ok(Plan([], top))
      case ChangesEmpty => Ok(Plan([], top))
      case ChangesNotIterable => Raise(TypeError)
      case ChangesOther => Raise(AttributeError)
      case ChangesList(es) =>
        match DecodeEntries(es)
        case Ok(rcs) => Ok(Plan(rcs, top))
        case Raise(err) => Raise(err)
  }

  /** A resource change written back as a document entry. */
  function EncodeEntry(rc: ResourceChange): Entry {
    EntryObject(rc.address, rc.rtype, rc.name, if rc.change.Some? then ChangeObject(rc.change.value.after) else ChangeFalsy, rc.after)
  }

  function EncodeEntries(rcs: seq<ResourceChange>): (es: seq<Entry>)
    ensures |es| == |rcs| && forall i :: 0 <= i < |rcs| ==> es[i] == EncodeEntry(rcs[i])
  {
    if rcs == [] then [] else [EncodeEntry(rcs[0])] + EncodeEntries(rcs[1..])
  }

  /** A plan written as a document, its resource changes as a list. */
  function Encode(plan: Plan): Document {
    ObjectDocument(ChangesList(EncodeEntries(plan.resourceChanges)), plan.topLevel)
  }

  /** Every walkable plan is the decoding of a document: the one it encodes to. */
  lemma {:induction false} DecodeEncode(plan: Plan)
    ensures Decode(Encode(plan)) == Ok(plan)
  {
    var es := EncodeEntries(plan.resourceChanges);
    forall i | 0 <= i < |es|
      ensures DecodeEntry(es[i]) == Ok(plan.resourceChanges[i])
    {
      assert es[i] == EncodeEntry(plan.resourceChanges[i]);
    }
    assert DecodeEntries(es).value == plan.resourceChanges;
  }

  /** Truthiness of an optional attributes object. */
  predicate TruthyAttrs(v: Option<Attributes>) {
    v.Some? && !IsEmptyDict(v.value)
  }

  function ChangeAfter(rc: ResourceChange): Option<Attributes> {
    match rc.change
    case Some(c) => c.after
    case None => None
  }

  /** One descriptor per resource change (parser.py lines 4-12). */
  function Describe(rc: ResourceChange): (d: Resource)
    ensures d.rtype == if Truthy(rc.rtype) then rc.rtype else rc.address
    ensures d.name == if Truthy(rc.name) then rc.name else rc.address
    ensures Truthy(rc.address) ==> d.resourceId == rc.address.value
    ensures !Truthy(rc.address) ==> d.resourceId == Show(d.rtype) + "." + Show(d.name)
    ensures TruthyAttrs(ChangeAfter(rc)) ==> d.attributes == ChangeAfter(rc).value
    ensures !TruthyAttrs(ChangeAfter(rc)) && TruthyAttrs(rc.after) ==> d.attributes == rc.after.value
    ensures !TruthyAttrs(ChangeAfter(rc)) && !TruthyAttrs(rc.after) ==> d.attributes == EmptyAttributes
  {
    var rtype := Or(rc.rtype, rc.address);
    var name := Or(rc.name, rc.address);
    var after := if TruthyAttrs(ChangeAfter(rc)) then ChangeAfter(rc).value
                 else if TruthyAttrs(rc.after) then rc.after.value
                 else EmptyAttributes;
    var id := if Truthy(rc.address) then rc.address.value else Show(rtype) + "." + Show(name);
    Resource(id, rtype, name, after)
  }

  function DescribeAll(rcs: seq<ResourceChange>): (r: seq<Resource>)
    ensures |r| == |rcs|
    ensures forall i :: 0 <= i < |rcs| ==> r[i] == Describe(rcs[i])
  {
    if rcs == [] then [] else DescribeAll(rcs[..|rcs| - 1]) + [Describe(rcs[|rcs| - 1])]
  }

  predicate IsResourceKey(k: string) {
    StartsWith(k, "aws_") || StartsWith(k, "azurerm_")
  }

  predicate IsResourceEntry(e: (string, TopValue)) {
    e.1.Object? && IsResourceKey(e.0)
  }

  function FromEntry(e: (string, TopValue)): Resource
    requires e.1.Object?
  {
    Resource(e.0, Some(e.0), Some(e.0), e.1.attrs)
  }

  /** The fallback scan of top-level keys (parser.py lines 15-18). */
  function Fallback(top: seq<(string, TopValue)>): (r: seq<Resource>)
    ensures |r| <= |top|
    ensures forall d :: d in r ==> d.rtype == Some(d.resourceId) && d.name == Some(d.resourceId) && IsResourceKey(d.resourceId)
    ensures forall d :: d in r ==> exists i :: 0 <= i < |top| && IsResourceEntry(top[i]) && d == FromEntry(top[i])
    ensures forall i :: 0 <= i < |top| && IsResourceEntry(top[i]) ==> FromEntry(top[i]) in r
  {
    if top == [] then []
    else
      var e := top[|top| - 1];
      var rest := Fallback(top[..|top| - 1]);
      assert forall i :: 0 <= i < |top| - 1 ==> top[..|top| - 1][i] == top[i];
      if IsResourceEntry(e) then rest + [FromEntry(e)] else rest
  }

  /** The fallback handles the top-level entries one at a time, in document order. */
  lemma {:induction false} FallbackConcat(a: seq<(string, TopValue)>, b: seq<(string, TopValue)>)
    ensures Fallback(a + b) == Fallback(a) + Fallback(b)
    decreases |b|
  {
    if b == [] {
      assert a + b == a;
    } else {
      var b' := b[..|b| - 1];
      assert (a + b)[..|a + b| - 1] == a + b' && (a + b)[|a + b| - 1] == b[|b| - 1];
      FallbackConcat(a, b');
    }
  }

  /** One top-level entry gives one descriptor when it qualifies, and none otherwise. */
  lemma {:induction false} FallbackSingle(e: (string, TopValue))
    ensures Fallback([e]) == if IsResourceEntry(e) then [FromEntry(e)] else []
  {
    assert [e][..0] == [];
  }

  /** What `parse_iac_plan` returns on a plan it can walk. */
  function Parse(plan: Plan): seq<Resource> {
    if plan.resourceChanges != [] then DescribeAll(plan.resourceChanges) else Fallback(plan.topLevel)
  }

  /** What `parse_iac_plan` does with a decoded document: raise, or return the plan's descriptors. */
  function ParseDocument(doc: Document): (r: Result<seq<Resource>>)
    ensures r.Raise? <==> Decode(doc).Raise?
    ensures r.Raise? ==> r.error == Decode(doc).error
    ensures r.Ok? ==> r.value == Parse(Decode(doc).value)
    ensures doc.ObjectDocument? && (doc.resourceChanges.ChangesAbsent? || doc.resourceChanges.ChangesEmpty?) ==>
      r == Ok(Fallback(doc.topLevel))
  {
    match Decode(doc)
    case Ok(plan) => Ok(Parse(plan))
    case Raise(err) => Raise(err)
  }

  /** The resource_changes loop over a list: one descriptor per entry, raising on the first entry it cannot walk. */
  method DescribeEntries(es: seq<Entry>) returns (r: Result<seq<Resource>>)
    ensures r.Ok? <==> DecodeEntries(es).Ok?
    ensures r.Raise? ==> r.error == AttributeError
    ensures r.Ok? ==> r.value == DescribeAll(DecodeEntries(es).value)
  {
    var parsed := [];
    var i := 0;
    while i < |es|
      invariant 0 <= i <= |es|
      invariant forall k :: 0 <= k < i ==> DecodeEntry(es[k]).Ok?
      invariant |parsed| == i && forall k :: 0 <= k < i ==> parsed[k] == Describe(DecodeEntry(es[k]).value)
    {
      var rc := DecodeEntry(es[i]);
      if rc.Raise? {
        return Raise(AttributeError);
      }
      parsed := parsed + [Describe(rc.value)];
      i := i + 1;
    }
    assert parsed == DescribeAll(DecodeEntries(es).value);
    return Ok(parsed);
  }

  /** The fallback loop over the top-level entries. */
  method FallbackScan(top: seq<(string, TopValue)>) returns (parsed: seq<Resource>)
    ensures parsed == Fallback(top)
  {
    parsed := [];
    var j := 0;
    while j < |top|
      invariant 0 <= j <= |top|
      invariant parsed == Fallback(top[..j])
    {
      assert top[..j + 1][..j] == top[..j];
      if IsResourceEntry(top[j]) {
        parsed := parsed + [FromEntry(top[j])];
      }
      j := j + 1;
    }
    assert top[..j] == top;
  }

  /**
   * `parse_iac_plan`: the resource_changes pass, raising on the first entry
   * it cannot walk, then the fallback only if the pass produced nothing.
   */
  method ParseIacPlan(doc: Document) returns (r: Result<seq<Resource>>)
    ensures r == ParseDocument(doc)
    ensures r.Ok? && Decode(doc).value.resourceChanges != [] ==>
      |r.value| == |Decode(doc).value.resourceChanges| &&
      forall i :: 0 <= i < |r.value| ==> r.value[i] == Describe(Decode(doc).value.resourceChanges[i])
    ensures r.Ok? && Decode(doc).value.resourceChanges == [] ==> r.value == Fallback(doc.topLevel)
  {
    if doc.NonObjectDocument? {
      return Raise(AttributeError);
    }
    var parsed := [];
    match doc.resourceChanges {
      case ChangesNotIterable =>
        return Raise(TypeError);
      case ChangesOther =>
        return Raise(AttributeError);
      case ChangesAbsent =>
      case ChangesEmpty =>
      case ChangesList(es) =>
        var described := DescribeEntries(es);
        if described.Raise? {
          return described;
        }
        parsed := described.value;
    }
    if parsed == [] {
      parsed := FallbackScan(doc.topLevel);
    }
    return Ok(parsed);
  }

  /** A plan without resource changes and without resource-like keys parses to nothing, without raising. */
  lemma {:induction false} NoResourcesParseToNothing(plan: Plan)
    requires plan.resourceChanges == []
    requires forall i :: 0 <= i < |plan.topLevel| ==> !IsResourceEntry(plan.topLevel[i])
    ensures Parse(plan) == []
  {
    FallbackWithoutEntries(plan.topLevel);
  }

  lemma {:induction false} FallbackWithoutEntries(top: seq<(string, TopValue)>)
    requires forall i :: 0 <= i < |top| ==> !IsResourceEntry(top[i])
    ensures Fallback(top) == []
  {
    if top != [] {
      FallbackWithoutEntries(top[..|top| - 1]);
    }
  }

  /** The empty document `{}`. */
  const EmptyDocument: Document := ObjectDocument(ChangesAbsent, [])

  /** The empty document `{}` parses to `[]`. */
  lemma {:induction false} EmptyPlanParsesToNothing()
    ensures ParseDocument(EmptyDocument) == Ok([])
  {
  }

  /**
   * The repository's parser test: a single `aws_s3_bucket` change with a
   * public-read ACL parses to one descriptor of that type.
   */
  lemma {:induction false} SingleBucketChange(acl: Attributes)
    requires !IsEmptyDict(acl)
    ensures var plan := Plan([ResourceChange(Some("aws_s3_bucket.mybucket"), Some("aws_s3_bucket"), Some("mybucket"), Some(Change(Some(acl))), None)], []);
      |Parse(plan)| == 1 && Parse(plan)[0].rtype == Some("aws_s3_bucket") &&
      Parse(plan)[0].resourceId == "aws_s3_bucket.mybucket" && Parse(plan)[0].attributes == acl
  {
  }

  /** A fallback-only plan: each matching key gives a descriptor named after the key. */
  lemma {:induction false} FallbackUsesKeys(plan: Plan, i: nat)
    requires plan.resourceChanges == []
    requires i < |plan.topLevel| && IsResourceEntry(plan.topLevel[i])
    ensures FromEntry(plan.topLevel[i]) in Parse(plan)
    ensures FromEntry(plan.topLevel[i]).resourceId == plan.topLevel[i].0
  {
  }
}
