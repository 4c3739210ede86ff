/**
 * The deployed worker: for every queue record it marks the scan WORKING, reads
 * and parses the plan, runs the per-resource pipeline with failures isolated
 * per resource, and marks the scan COMPLETED with the collected results; a
 * failure of the record marks it FAILED with the traceback.
 *
 * Both the handler as written and a corrected handler are modelled: the
 * handler as written decides whether to write FAILED by asking whether a
 * `scan_id` variable exists, which is still the one of an earlier record.
 */
module WorkerDeployed {
  import opened Wrappers
  import opened Resources
  import opened Explanation
  import opened StatusStore
  import Parser

  /**
   * A key of a record body: absent, null, or a string. A number, a bool or any
   * other non-string value is `JsonNull` here: the table's and the plan store's
   * parameter checks reject it exactly as they reject null.
   */
  datatype Field = Missing | JsonNull | JsonString(value: string)

  /** `body.get(key)` */
  function Get(f: Field): Option<string> {
    if f.JsonString? then Some(f.value) else None
  }

  /** A queue record: a body that does not decode to a JSON object, or the object's `scan_id` and `s3_key`. */
  datatype Record = Malformed | Body(scanId: Field, s3Key: Field)

  /**
   * What the worker depends on: reading the plan under a key and decoding its
   * JSON (`None` when the read or `json.loads` raises), the per-resource
   * pipeline (`None` when it raises), and the traceback text of a failure,
   * kept opaque. `fetch(None)` stands for `get_object(Key=None)`, which the
   * client always rejects; the model leaves it free, so only an `env` with
   * `fetch(None) == None` describes the deployed service.
   */
  datatype Env = Env(fetch: Option<string> -> Option<Parser.Document>, step: Resource -> Option<ScanResult>, traceback: string)

  /** The descriptors of the plan under a key: `None` when the read, the decoding or `parse_iac_plan` raises. */
  function Parsed(env: Env, s3Key: Option<string>): (r: Option<seq<Resource>>)
    ensures r.Some? <==> env.fetch(s3Key).Some? && Parser.ParseDocument(env.fetch(s3Key).value).Ok?
  {
    match env.fetch(s3Key)
    case None => None
    case Some(doc) =>
      match Parser.ParseDocument(doc)
      case Ok(parsed) => Some(parsed)
      case Raise(_) => None
  }

  /** The results of the resource loop: the explanation of every resource whose pipeline returned, in parse order. */
  function Results(step: Resource -> Option<ScanResult>, parsed: seq<Resource>): (r: seq<ScanResult>)
    ensures |r| <= |parsed|
  {
    if parsed == [] then []
    else (if step(parsed[0]).Some? then [step(parsed[0]).value] else []) + Results(step, parsed[1..])
  }

  /** Resources are handled independently: the results of two batches are the two results, in order. */
  lemma {:induction false} ResultsConcat(step: Resource -> Option<ScanResult>, a: seq<Resource>, b: seq<Resource>)
    ensures Results(step, a + b) == Results(step, a) + Results(step, b)
  {
    if a == [] {
      assert [] + b == b;
    } else {
      var head := if step(a[0]).Some? then [step(a[0]).value] else [];
      assert (a + b)[0] == a[0] && (a + b)[1..] == a[1..] + b;
      ResultsConcat(step, a[1..], b);
      assert head + (Results(step, a[1..]) + Results(step, b)) == (head + Results(step, a[1..])) + Results(step, b);
    }
  }

  /** Every result comes from a resource whose pipeline returned it, and every such result is there. */
  lemma {:induction false} ResultsExact(step: Resource -> Option<ScanResult>, parsed: seq<Resource>)
    ensures forall x :: x in Results(step, parsed) ==> exists i :: 0 <= i < |parsed| && step(parsed[i]) == Some(x)
    ensures forall i :: 0 <= i < |parsed| && step(parsed[i]).Some? ==> step(parsed[i]).value in Results(step, parsed)
  {
    if parsed != [] {
      ResultsExact(step, parsed[1..]);
      forall x | x in Results(step, parsed)
        ensures exists i :: 0 <= i < |parsed| && step(parsed[i]) == Some(x)
      {
        if x in Results(step, parsed[1..]) {
          var j :| 0 <= j < |parsed[1..]| && step(parsed[1..][j]) == Some(x);
          assert parsed[j + 1] == parsed[1..][j];
        }
      }
      forall i | 0 <= i < |parsed| && step(parsed[i]).Some?
        ensures step(parsed[i]).value in Results(step, parsed)
      {
        if i > 0 {
          assert parsed[i] == parsed[1..][i - 1];
        }
      }
    }
  }

  /** No resource is lost exactly when no resource's pipeline raised. */
  lemma {:induction false} ResultsLoseOnlyFailures(step: Resource -> Option<ScanResult>, parsed: seq<Resource>)
    ensures |Results(step, parsed)| == |parsed| <==> forall i :: 0 <= i < |parsed| ==> step(parsed[i]).Some?
  {
    if parsed != [] {
      ResultsLoseOnlyFailures(step, parsed[1..]);
      assert forall i :: 0 < i < |parsed| ==> parsed[i] == parsed[1..][i - 1];
    }
  }

  /** The resource loop of `process_scan`, with its per-resource `try`/`except`. */
  method CollectResults(env: Env, parsed: seq<Resource>) returns (results: seq<ScanResult>)
    ensures results == Results(env.step, parsed)
  {
    results := [];
    var rest := parsed;
    while rest != []
      invariant results + Results(env.step, rest) == Results(env.step, parsed)
      decreases |rest|
    {
      var explain := env.step(rest[0]);
      if explain.Some? {
        assert results + Results(env.step, rest) == (results + [explain.value]) + Results(env.step, rest[1..]);
        results := results + [explain.value];
      }
      rest := rest[1..];
    }
    assert results + [] == results;
  }

  /** `process_scan`: read and parse the plan, collect the results, write COMPLETED; `ok` is false when it raises. */
  function ProcessSpec(accepts: Write -> bool, env: Env, snap: Snapshot, scanId: Option<string>, s3Key: Option<string>): Update {
    match Parsed(env, s3Key)
    case None => Update(snap, false)
    case Some(parsed) => UpdateSpec(snap, accepts, scanId, COMPLETED, Some(Results(env.step, parsed)), None)
  }

  method ProcessScan(store: Store, env: Env, scanId: Option<string>, s3Key: Option<string>)
    returns (ok: bool, results: seq<ScanResult>)
    modifies store
    ensures Update(store.Now(), ok) == ProcessSpec(store.accepts, env, old(store.Now()), scanId, s3Key)
    ensures ok ==> results == Results(env.step, Parsed(env, s3Key).value)
  {
    var doc := env.fetch(s3Key);
    if doc.None? {
      return false, [];
    }
    var parsed := Parser.ParseIacPlan(doc.value);
    if parsed.Raise? {
      return false, [];
    }
    results := CollectResults(env, parsed.value);
    ok := store.UpdateStatus(scanId, COMPLETED, Some(results), None);
  }

  /** After one record: the snapshot, what the name `scan_id` is bound to (`None`: unbound), and whether the handler raises. */
  datatype RecordOutcome = RecordOutcome(snap: Snapshot, bound: Option<Option<string>>, raised: bool)

  datatype Outcome = Outcome(snap: Snapshot, raised: bool)

  /** The `try` block of one record: `failed` is true when it raised. */
  datatype TryOutcome = TryOutcome(snap: Snapshot, bound: Option<Option<string>>, failed: bool)

  /**
   * A malformed body fails at once and leaves `scan_id` as it was; otherwise
   * `scan_id` is bound to the record's id, and the block succeeds only when the
   * plan parses. Writes only ever go to the bound id and are appended to the log.
   */
  function TrySpec(accepts: Write -> bool, env: Env, snap: Snapshot, bound: Option<Option<string>>, rec: Record): (t: TryOutcome)
    ensures rec.Malformed? ==> t == TryOutcome(snap, bound, true)
    ensures rec.Body? ==> t.bound == Some(Get(rec.scanId))
    ensures rec.Body? && Get(rec.scanId).None? ==> t == TryOutcome(snap, Some(None), true)
    ensures !t.failed ==> rec.Body? && Parsed(env, Get(rec.s3Key)).Some?
    ensures snap.history <= t.snap.history && snap.items.Keys <= t.snap.items.Keys
    ensures forall k :: k in snap.items && t.bound != Some(Some(k)) ==> t.snap.items[k] == snap.items[k]
  {
    match rec
    case Malformed => TryOutcome(snap, bound, true)
    case Body(idField, keyField) =>
      var id := Get(idField);
      var working := UpdateSpec(snap, accepts, id, WORKING, None, None);
      if !working.ok then TryOutcome(working.snap, Some(id), true)
      else
        var done := ProcessSpec(accepts, env, working.snap, id, Get(keyField));
        TryOutcome(done.snap, Some(id), !done.ok)
  }

  /** One record as written: on failure, FAILED goes to whatever `scan_id` is bound to, if anything. */
  function RecordSpec(accepts: Write -> bool, env: Env, snap: Snapshot, bound: Option<Option<string>>, rec: Record): (r: RecordOutcome)
    ensures r.bound == if rec.Body? then Some(Get(rec.scanId)) else bound
    ensures rec.Malformed? && bound.None? ==> r == RecordOutcome(snap, None, false)
    ensures rec.Malformed? && bound.Some? ==>
      r.snap == UpdateSpec(snap, accepts, bound.value, FAILED, None, Some(env.traceback)).snap
    ensures rec.Body? && Get(rec.scanId).None? ==> r.raised
    ensures snap.history <= r.snap.history && snap.items.Keys <= r.snap.items.Keys
    ensures forall k :: k in snap.items && r.bound != Some(Some(k)) ==> r.snap.items[k] == snap.items[k]
  {
    var t := TrySpec(accepts, env, snap, bound, rec);
    if t.failed && t.bound.Some? then
      var marked := UpdateSpec(t.snap, accepts, t.bound.value, FAILED, None, Some(env.traceback));
      RecordOutcome(marked.snap, t.bound, !marked.ok)
    else
      RecordOutcome(t.snap, t.bound, false)
  }

  /** `handler` as written: the records in order, until one raises out of the handler. */
  function HandleSpec(accepts: Write -> bool, env: Env, snap: Snapshot, bound: Option<Option<string>>, records: seq<Record>): (r: Outcome)
    ensures records == [] ==> r == Outcome(snap, false)
    ensures records != [] && RecordSpec(accepts, env, snap, bound, records[0]).raised ==>
      r == Outcome(RecordSpec(accepts, env, snap, bound, records[0]).snap, true)
    ensures snap.history <= r.snap.history && snap.items.Keys <= r.snap.items.Keys
    decreases |records|
  {
    if records == [] then Outcome(snap, false)
    else
      var o := RecordSpec(accepts, env, snap, bound, records[0]);
      if o.raised then Outcome(o.snap, true) else HandleSpec(accepts, env, o.snap, o.bound, records[1..])
  }

  /** The `try` block of one record. */
  method TryRecord(store: Store, env: Env, bound: Option<Option<string>>, rec: Record)
    returns (bound': Option<Option<string>>, failed: bool)
    modifies store
    ensures TryOutcome(store.Now(), bound', failed) == TrySpec(store.accepts, env, old(store.Now()), bound, rec)
  {
    if rec.Malformed? {
      return bound, true;
    }
    var scanId := Get(rec.scanId);
    var s3Key := Get(rec.s3Key);
    bound' := Some(scanId);
    var ok := store.UpdateStatus(scanId, WORKING, None, None);
    if !ok {
      return bound', true;
    }
    var done, results := ProcessScan(store, env, scanId, s3Key);
    failed := !done;
  }

  /** `handler` as written. */
  method Handler(store: Store, env: Env, records: seq<Record>) returns (raised: bool)
    modifies store
    ensures Outcome(store.Now(), raised) == HandleSpec(store.accepts, env, old(store.Now()), None, records)
  {
    var bound: Option<Option<string>> := None;
    var rest := records;
    while rest != []
      invariant HandleSpec(store.accepts, env, old(store.Now()), None, records) == HandleSpec(store.accepts, env, store.Now(), bound, rest)
      decreases |rest|
    {
      var failed;
      bound, failed := TryRecord(store, env, bound, rest[0]);
      if failed && bound.Some? {
        var ok := store.UpdateStatus(bound.value, FAILED, None, Some(env.traceback));
        if !ok {
          return true;
        }
      }
      rest := rest[1..];
    }
    return false;
  }

  /**
   * WORKING is the first write of a well-formed record, and nothing is read
   * before it: when the table rejects it, the record has made no change,
   * whatever the plan store would have returned.
   */
  lemma {:induction false} WorkingBeforeProcessing(accepts: Write -> bool, env: Env, snap: Snapshot, bound: Option<Option<string>>,
                                id: string, key: Field)
    ensures var t := TrySpec(accepts, env, snap, bound, Body(JsonString(id), key));
      t.bound == Some(Some(id)) &&
      (accepts(Write(id, WORKING, None, None)) ==>
        |t.snap.history| > |snap.history| && t.snap.history[|snap.history|] == Write(id, WORKING, None, None)) &&
      (!accepts(Write(id, WORKING, None, None)) ==> t.snap == snap && t.failed)
  {
    var working := UpdateSpec(snap, accepts, Some(id), WORKING, None, None);
    if working.ok {
      var done := ProcessSpec(accepts, env, working.snap, Some(id), Get(key));
      assert done.snap.history[..|working.snap.history|] == working.snap.history;
    }
  }

  /** A record whose plan is read and whose COMPLETED write is taken: WORKING, then COMPLETED with the results. */
  lemma {:induction false} CompletedCarriesResults(accepts: Write -> bool, env: Env, snap: Snapshot, bound: Option<Option<string>>,
                                id: string, key: Field)
    requires Parsed(env, Get(key)).Some?
    requires accepts(Write(id, WORKING, None, None))
    requires accepts(Write(id, COMPLETED, Some(Results(env.step, Parsed(env, Get(key)).value)), None))
    ensures var rs := Results(env.step, Parsed(env, Get(key)).value);
      var o := RecordSpec(accepts, env, snap, bound, Body(JsonString(id), key));
      !o.raised &&
      o.snap.history == snap.history + [Write(id, WORKING, None, None), Write(id, COMPLETED, Some(rs), None)] &&
      o.snap.items[id].status == COMPLETED && o.snap.items[id].results == Some(rs)
  {
  }

  /** A plan with no resources completes with empty results. */
  lemma {:induction false} EmptyPlanCompletes(accepts: Write -> bool, env: Env, snap: Snapshot, bound: Option<Option<string>>,
                           id: string, key: Field)
    requires env.fetch(Get(key)) == Some(Parser.EmptyDocument)
    requires forall w :: accepts(w)
    ensures var o := RecordSpec(accepts, env, snap, bound, Body(JsonString(id), key));
      !o.raised && o.snap.items[id].status == COMPLETED && o.snap.items[id].results == Some([])
  {
    Parser.EmptyPlanParsesToNothing();
  }

  /** A plan that cannot be read, decoded or parsed: WORKING, then FAILED with the traceback; the handler goes on. */
  lemma {:induction false} ReadFailureMarksFailed(accepts: Write -> bool, env: Env, snap: Snapshot, bound: Option<Option<string>>,
                               id: string, key: Field)
    requires Parsed(env, Get(key)).None?
    requires accepts(Write(id, WORKING, None, None)) && accepts(Write(id, FAILED, None, Some(env.traceback)))
    ensures var o := RecordSpec(accepts, env, snap, bound, Body(JsonString(id), key));
      !o.raised &&
      o.snap.history == snap.history + [Write(id, WORKING, None, None), Write(id, FAILED, None, Some(env.traceback))] &&
      o.snap.items[id].status == FAILED && o.snap.items[id].error == Some(env.traceback)
  {
  }

  /**
   * A plan document the parser cannot walk (not an object, a null or scalar
   * `resource_changes`, an entry or a `change` that is not an object) fails
   * the scan the same way: its exception propagates out of `process_scan`.
   */
  lemma {:induction false} UnwalkablePlanMarksFailed(accepts: Write -> bool, env: Env, snap: Snapshot, bound: Option<Option<string>>,
                                  id: string, key: Field, doc: Parser.Document)
    requires env.fetch(Get(key)) == Some(doc) && Parser.Decode(doc).Raise?
    requires accepts(Write(id, WORKING, None, None)) && accepts(Write(id, FAILED, None, Some(env.traceback)))
    ensures var o := RecordSpec(accepts, env, snap, bound, Body(JsonString(id), key));
      !o.raised && o.snap.items[id].status == FAILED && o.snap.items[id].error == Some(env.traceback)
  {
    ReadFailureMarksFailed(accepts, env, snap, bound, id, key);
  }

  /**
   * When every request is taken and every well-formed record has a scan id,
   * the handler as written never raises: every record is handled.
   */
  lemma {:induction false} AcceptingStoreNeverRaises(accepts: Write -> bool, env: Env, snap: Snapshot,
                                                     bound: Option<Option<string>>, records: seq<Record>)
    requires forall w :: accepts(w)
    requires forall i :: 0 <= i < |records| ==> records[i].Body? ==> records[i].scanId.JsonString?
    requires bound.None? || bound.value.Some?
    ensures !HandleSpec(accepts, env, snap, bound, records).raised
    decreases |records|
  {
    if records != [] {
      var o := RecordSpec(accepts, env, snap, bound, records[0]);
      assert !o.raised;
      assert forall i :: 0 <= i < |records[1..]| ==> records[1..][i] == records[i + 1];
      AcceptingStoreNeverRaises(accepts, env, o.snap, o.bound, records[1..]);
    }
  }

  /**
   * As written, a malformed record that follows a completed scan marks that
   * scan FAILED: `scan_id` still holds the earlier record's id. The item then
   * reads FAILED next to the results of the scan that completed.
   */
  lemma {:induction false} StaleScanIdMarksCompletedScanFailed(env: Env, parsed: seq<Resource>)
    requires Parsed(env, Some("k")) == Some(parsed)
    ensures var all := (w: Write) => true;
      var rs := Results(env.step, parsed);
      var o := HandleSpec(all, env, Snapshot(map[], []), None, [Body(JsonString("A"), JsonString("k")), Malformed]);
      !o.raised && o.snap.items["A"] == Item(FAILED, Some(rs), Some(env.traceback))
  {
    var all := (w: Write) => true;
    var records := [Body(JsonString("A"), JsonString("k")), Malformed];
    CompletedRecordBindsId(env, parsed);
    var o1 := RecordSpec(all, env, Snapshot(map[], []), None, records[0]);
    assert records[1..] == [Malformed];
    var o2 := RecordSpec(all, env, o1.snap, o1.bound, Malformed);
    assert [Malformed][1..] == [];
  }

  /** The first record of that case: scan A completes and `scan_id` stays bound to it. */
  lemma {:induction false} CompletedRecordBindsId(env: Env, parsed: seq<Resource>)
    requires Parsed(env, Some("k")) == Some(parsed)
    ensures var o := RecordSpec((w: Write) => true, env, Snapshot(map[], []), None, Body(JsonString("A"), JsonString("k")));
      o.bound == Some(Some("A")) && !o.raised && "A" in o.snap.items &&
      o.snap.items["A"] == Item(COMPLETED, Some(Results(env.step, parsed)), None)
  {
  }


  /**
   * As written, a record without a scan id ends the invocation: the WORKING
   * write with a null key fails, the handler retries FAILED with the same null
   * key, that raises too, and the later records are never looked at.
   */
  lemma {:induction false} MissingScanIdAbortsLaterRecords(env: Env)
    ensures var all := (w: Write) => true;
      HandleSpec(all, env, Snapshot(map[], []), None, [Body(Missing, JsonString("k")), Body(JsonString("B"), JsonString("k"))]) ==
        Outcome(Snapshot(map[], []), true)
  {
  }

  /**
   * The corrected record step: `scan_id` is reset for every record, and
   * FAILED is written only under a scan id this record supplied.
   */
  function RecordFixedSpec(accepts: Write -> bool, env: Env, snap: Snapshot, rec: Record): Outcome {
    var t := TrySpec(accepts, env, snap, None, rec);
    if t.failed && t.bound.Some? && t.bound.value.Some? then
      var marked := UpdateSpec(t.snap, accepts, t.bound.value, FAILED, None, Some(env.traceback));
      Outcome(marked.snap, !marked.ok)
    else
      Outcome(t.snap, false)
  }

  function HandleFixedSpec(accepts: Write -> bool, env: Env, snap: Snapshot, records: seq<Record>): Outcome
    decreases |records|
  {
    if records == [] then Outcome(snap, false)
    else
      var o := RecordFixedSpec(accepts, env, snap, records[0]);
      if o.raised then o else HandleFixedSpec(accepts, env, o.snap, records[1..])
  }

  /** The corrected handler. */
  method HandlerFixed(store: Store, env: Env, records: seq<Record>) returns (raised: bool)
    modifies store
    ensures Outcome(store.Now(), raised) == HandleFixedSpec(store.accepts, env, old(store.Now()), records)
  {
    var rest := records;
    while rest != []
      invariant HandleFixedSpec(store.accepts, env, old(store.Now()), records) == HandleFixedSpec(store.accepts, env, store.Now(), rest)
      decreases |rest|
    {
      var bound, failed := TryRecord(store, env, None, rest[0]);
      if failed && bound.Some? && bound.value.Some? {
        var ok := store.UpdateStatus(bound.value, FAILED, None, Some(env.traceback));
        if !ok {
          return true;
        }
      }
      rest := rest[1..];
    }
    return false;
  }

  /** The scan a record may write to: the id its body supplies. */
  function Target(rec: Record): Option<string> {
    if rec.Body? then Get(rec.scanId) else None
  }

  /** Corrected, a record without a usable scan id changes nothing and does not stop the handler. */
  lemma {:induction false} FixedBadRecordChangesNothing(accepts: Write -> bool, env: Env, snap: Snapshot, rec: Record)
    requires Target(rec).None?
    ensures RecordFixedSpec(accepts, env, snap, rec) == Outcome(snap, false)
  {
  }

  /** Corrected, a record changes no item but its own scan's. */
  lemma {:induction false} FixedRecordTouchesOnlyItsScan(accepts: Write -> bool, env: Env, snap: Snapshot, rec: Record, other: string)
    requires Target(rec) != Some(other)
    ensures Lookup(RecordFixedSpec(accepts, env, snap, rec).snap.items, other) == Lookup(snap.items, other)
  {
    var t := TrySpec(accepts, env, snap, None, rec);
    assert Lookup(t.snap.items, other) == Lookup(snap.items, other);
  }

  /** Corrected, a scan's item is changed only by the records that name it. */
  lemma {:induction false} FixedOtherScansUntouched(accepts: Write -> bool, env: Env, snap: Snapshot,
                                                    records: seq<Record>, other: string)
    requires forall i :: 0 <= i < |records| ==> Target(records[i]) != Some(other)
    ensures Lookup(HandleFixedSpec(accepts, env, snap, records).snap.items, other) == Lookup(snap.items, other)
    decreases |records|
  {
    if records != [] {
      FixedRecordTouchesOnlyItsScan(accepts, env, snap, records[0], other);
      var o := RecordFixedSpec(accepts, env, snap, records[0]);
      assert forall i :: 0 <= i < |records[1..]| ==> records[1..][i] == records[i + 1];
      FixedOtherScansUntouched(accepts, env, o.snap, records[1..], other);
    }
  }

  /** Corrected, a table that takes every request never makes the handler raise, whatever the records. */
  lemma {:induction false} FixedAcceptingStoreNeverRaises(accepts: Write -> bool, env: Env, snap: Snapshot, records: seq<Record>)
    requires forall w :: accepts(w)
    ensures !HandleFixedSpec(accepts, env, snap, records).raised
    decreases |records|
  {
    if records != [] {
      var o := RecordFixedSpec(accepts, env, snap, records[0]);
      assert !o.raised;
      FixedAcceptingStoreNeverRaises(accepts, env, o.snap, records[1..]);
    }
  }

  /** Corrected, the two inputs of the findings above: scan A stays COMPLETED, and scan B is processed. */
  lemma {:induction false} FixedHandlesBothInputs(env: Env, parsed: seq<Resource>)
    requires Parsed(env, Some("k")) == Some(parsed)
    ensures var all := (w: Write) => true;
      var rs := Results(env.step, parsed);
      var o1 := HandleFixedSpec(all, env, Snapshot(map[], []), [Body(JsonString("A"), JsonString("k")), Malformed]);
      var o2 := HandleFixedSpec(all, env, Snapshot(map[], []), [Body(Missing, JsonString("k")), Body(JsonString("B"), JsonString("k"))]);
      !o1.raised && "A" in o1.snap.items && o1.snap.items["A"] == Item(COMPLETED, Some(rs), None) &&
      !o2.raised && "B" in o2.snap.items && o2.snap.items["B"] == Item(COMPLETED, Some(rs), None)
  {
    FixedKeepsCompletedScan(env, parsed);
    FixedProcessesLaterRecord(env, parsed);
  }

  lemma {:induction false} FixedKeepsCompletedScan(env: Env, parsed: seq<Resource>)
    requires Parsed(env, Some("k")) == Some(parsed)
    ensures var o := HandleFixedSpec((w: Write) => true, env, Snapshot(map[], []), [Body(JsonString("A"), JsonString("k")), Malformed]);
      !o.raised && "A" in o.snap.items && o.snap.items["A"] == Item(COMPLETED, Some(Results(env.step, parsed)), None)
  {
    var all := (w: Write) => true;
    var s0 := Snapshot(map[], []);
    var a := [Body(JsonString("A"), JsonString("k")), Malformed];
    var o1 := RecordFixedSpec(all, env, s0, a[0]);
    assert !o1.raised && o1.snap.items["A"] == Item(COMPLETED, Some(Results(env.step, parsed)), None);
    assert a[1..] == [Malformed] && [Malformed][1..] == [];
    assert RecordFixedSpec(all, env, o1.snap, Malformed) == Outcome(o1.snap, false);
    assert HandleFixedSpec(all, env, s0, a) == HandleFixedSpec(all, env, o1.snap, [Malformed]) == Outcome(o1.snap, false);
  }

  lemma {:induction false} FixedProcessesLaterRecord(env: Env, parsed: seq<Resource>)
    requires Parsed(env, Some("k")) == Some(parsed)
    ensures var o := HandleFixedSpec((w: Write) => true, env, Snapshot(map[], []), [Body(Missing, JsonString("k")), Body(JsonString("B"), JsonString("k"))]);
      !o.raised && "B" in o.snap.items && o.snap.items["B"] == Item(COMPLETED, Some(Results(env.step, parsed)), None)
  {
    var all := (w: Write) => true;
    var s0 := Snapshot(map[], []);
    var b := [Body(Missing, JsonString("k")), Body(JsonString("B"), JsonString("k"))];
    var o1 := RecordFixedSpec(all, env, s0, b[0]);
    assert !o1.raised && o1.snap == s0;
    assert b[1..] == [b[1]] && [b[1]][1..] == [];
    var o2 := RecordFixedSpec(all, env, s0, b[1]);
    assert HandleFixedSpec(all, env, s0, b) == HandleFixedSpec(all, env, s0, [b[1]]) == o2;
  }
}
