/**
 * The earlier worker: the same status writes and the same `process_scan`, but
 * a record's body is decoded and its `scan_id` and `s3_key` are looked up
 * before the `try`, so a record that cannot be read raises out of the handler
 * and ends the invocation.
 */
module WorkerEarly {
  import opened Wrappers
  import opened StatusStore
  import opened WorkerDeployed

  /** `json.loads(rec['body'])`, `body['scan_id']` and `body['s3_key']` all succeed. */
  predicate Readable(rec: Record) {
    rec.Body? && !rec.scanId.Missing? && !rec.s3Key.Missing?
  }

  /**
   * One record: unreadable, it raises before the `try`; otherwise WORKING,
   * `process_scan`, and FAILED under the record's own scan id on any failure,
   * a failing FAILED write raising out of the handler.
   */
  function RecordEarlySpec(accepts: Write -> bool, env: Env, snap: Snapshot, rec: Record): (r: Outcome)
    ensures !Readable(rec) ==> r == Outcome(snap, true)
    ensures Readable(rec) && !TrySpec(accepts, env, snap, None, rec).failed ==> !r.raised
    ensures snap.history <= r.snap.history && snap.items.Keys <= r.snap.items.Keys
    ensures forall k :: k in snap.items && !(rec.Body? && Get(rec.scanId) == Some(k)) ==> r.snap.items[k] == snap.items[k]
  {
    if !Readable(rec) then Outcome(snap, true)
    else
      var t := TrySpec(accepts, env, snap, None, rec);
      if t.failed then
        var marked := UpdateSpec(t.snap, accepts, Get(rec.scanId), FAILED, None, Some(env.traceback));
        Outcome(marked.snap, !marked.ok)
      else
        Outcome(t.snap, false)
  }

  function HandleEarlySpec(accepts: Write -> bool, env: Env, snap: Snapshot, records: seq<Record>): Outcome
    decreases |records|
  {
    if records == [] then Outcome(snap, false)
    else
      var o := RecordEarlySpec(accepts, env, snap, records[0]);
      if o.raised then o else HandleEarlySpec(accepts, env, o.snap, records[1..])
  }

  /** `handler` */
  method Handler(store: Store, env: Env, records: seq<Record>) returns (raised: bool)
    modifies store
    ensures Outcome(store.Now(), raised) == HandleEarlySpec(store.accepts, env, old(store.Now()), records)
  {
    var rest := records;
    while rest != []
      invariant HandleEarlySpec(store.accepts, env, old(store.Now()), records) == HandleEarlySpec(store.accepts, env, store.Now(), rest)
      decreases |rest|
    {
      var rec := rest[0];
      if rec.Malformed? || rec.scanId.Missing? || rec.s3Key.Missing? {
        return true;
      }
      var scanId := Get(rec.scanId);
      var bound, failed := TryRecord(store, env, None, rec);
      if failed {
        var ok := store.UpdateStatus(scanId, FAILED, None, Some(env.traceback));
        if !ok {
          return true;
        }
      }
      rest := rest[1..];
    }
    return false;
  }

  /** Records are handled one after another: a batch that does not raise hands its table on to the next. */
  lemma {:induction false} HandleEarlyConcat(accepts: Write -> bool, env: Env, snap: Snapshot, a: seq<Record>, b: seq<Record>)
    requires !HandleEarlySpec(accepts, env, snap, a).raised
    ensures HandleEarlySpec(accepts, env, snap, a + b) == HandleEarlySpec(accepts, env, HandleEarlySpec(accepts, env, snap, a).snap, b)
    decreases |a|
  {
    if a == [] {
      assert [] + b == b;
    } else {
      var o := RecordEarlySpec(accepts, env, snap, a[0]);
      assert (a + b)[0] == a[0] && (a + b)[1..] == a[1..] + b;
      HandleEarlyConcat(accepts, env, o.snap, a[1..], b);
    }
  }

  /**
   * An unreadable record ends the invocation where it stands: the table is
   * left as the earlier records made it, and no later record is handled.
   */
  lemma {:induction false} UnreadableRecordAbortsRest(accepts: Write -> bool, env: Env, snap: Snapshot, a: seq<Record>, bad: Record, b: seq<Record>)
    requires !HandleEarlySpec(accepts, env, snap, a).raised && !Readable(bad)
    ensures HandleEarlySpec(accepts, env, snap, a + [bad] + b) == Outcome(HandleEarlySpec(accepts, env, snap, a).snap, true)
  {
    assert a + [bad] + b == a + ([bad] + b);
    HandleEarlyConcat(accepts, env, snap, a, [bad] + b);
  }

  /** A readable record taken whole by the table: WORKING, then COMPLETED with the results or FAILED with the traceback. */
  lemma {:induction false} ReadableRecordLifecycle(accepts: Write -> bool, env: Env, snap: Snapshot, id: string, key: Field)
    requires forall w :: accepts(w)
    requires !key.Missing?
    ensures var o := RecordEarlySpec(accepts, env, snap, Body(JsonString(id), key));
      var parsed := Parsed(env, Get(key));
      !o.raised &&
      o.snap.history == snap.history + [Write(id, WORKING, None, None),
        if parsed.Some? then Write(id, COMPLETED, Some(Results(env.step, parsed.value)), None)
        else Write(id, FAILED, None, Some(env.traceback))]
  {
  }

  /** A null `scan_id` gets past the lookup, but both writes under it fail and the second one raises. */
  lemma {:induction false} NullScanIdRaises(accepts: Write -> bool, env: Env, snap: Snapshot, key: Field)
    requires !key.Missing?
    ensures RecordEarlySpec(accepts, env, snap, Body(JsonNull, key)) == Outcome(snap, true)
  {
  }

  /**
   * On records that carry a string scan id and a key, this handler and the
   * corrected deployed handler do the same thing.
   */
  lemma {:induction false} AgreesWithCorrectedDeployed(accepts: Write -> bool, env: Env, snap: Snapshot, records: seq<Record>)
    requires forall i :: 0 <= i < |records| ==> records[i].Body? && records[i].scanId.JsonString? && !records[i].s3Key.Missing?
    ensures HandleEarlySpec(accepts, env, snap, records) == HandleFixedSpec(accepts, env, snap, records)
    decreases |records|
  {
    if records != [] {
      var o := RecordEarlySpec(accepts, env, snap, records[0]);
      assert o == RecordFixedSpec(accepts, env, snap, records[0]);
      assert forall i :: 0 <= i < |records[1..]| ==> records[1..][i] == records[i + 1];
      AgreesWithCorrectedDeployed(accepts, env, o.snap, records[1..]);
    }
  }
}
