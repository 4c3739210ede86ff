/**
 * The scan-status table as the workers' `update_status` uses it: one item per
 * scan id holding `status`, `results_json` and `error_message`. An update sets
 * the status and only the attributes it is given; every other attribute of the
 * item, and every other item, stays as it was.
 */
module StatusStore {
  import opened Wrappers
  import opened Explanation

  datatype ScanStatus = PENDING | WORKING | COMPLETED | FAILED

  /** A scan's item; `results` and `error` are `None` until first written. */
  datatype Item = Item(status: ScanStatus, results: Option<seq<ScanResult>>, error: Option<string>)

  /** One `update_item` call the table applied. */
  datatype Write = Write(scanId: string, status: ScanStatus, results: Option<seq<ScanResult>>, error: Option<string>)

  /** The table's items and the updates it has applied, oldest first. */
  datatype Snapshot = Snapshot(items: map<string, Item>, history: seq<Write>)

  /** The outcome of an update: the new snapshot, and whether the call returned normally. */
  datatype Update = Update(snap: Snapshot, ok: bool)

  /** `SET #s = :s` plus `results_json` and `error_message` when given, on the item or on a new one. */
  function Apply(prior: Option<Item>, w: Write): Item {
    var base := if prior.Some? then prior.value else Item(w.status, None, None);
    Item(w.status,
         if w.results.Some? then w.results else base.results,
         if w.error.Some? then w.error else base.error)
  }

  function Lookup(items: map<string, Item>, id: string): Option<Item> {
    if id in items then Some(items[id]) else None
  }

  /**
   * `update_status(scan_id, status, results, error)`. A null scan id fails the
   * request's parameter validation, and `accepts` says whether the table takes
   * a well-formed request; a failure is re-raised to the caller.
   */
  function UpdateSpec(snap: Snapshot, accepts: Write -> bool, scanId: Option<string>, status: ScanStatus,
                      results: Option<seq<ScanResult>>, error: Option<string>): Update {
    if scanId.None? then Update(snap, false)
    else
      var w := Write(scanId.value, status, results, error);
      if accepts(w) then Update(Snapshot(snap.items[w.scanId := Apply(Lookup(snap.items, w.scanId), w)], snap.history + [w]), true)
      else Update(snap, false)
  }

  /**
   * What an update promises: on success the status is set, `results_json`
   * and `error_message` are replaced only when given, no other item changes,
   * and the call is appended to the history; on failure nothing changes.
   */
  lemma {:induction false} UpdateSetsOnlyWhatIsGiven(snap: Snapshot, accepts: Write -> bool, scanId: Option<string>, status: ScanStatus,
                                  results: Option<seq<ScanResult>>, error: Option<string>)
    ensures var u := UpdateSpec(snap, accepts, scanId, status, results, error);
      (u.ok <==> scanId.Some? && accepts(Write(scanId.value, status, results, error))) &&
      (!u.ok ==> u.snap == snap) &&
      (u.ok ==>
        var id := scanId.value;
        var prior := Lookup(snap.items, id);
        id in u.snap.items &&
        u.snap.items[id].status == status &&
        u.snap.items[id].results == (if results.Some? then results else if prior.Some? then prior.value.results else None) &&
        u.snap.items[id].error == (if error.Some? then error else if prior.Some? then prior.value.error else None) &&
        (forall k :: k != id ==> Lookup(u.snap.items, k) == Lookup(snap.items, k)) &&
        u.snap.history == snap.history + [Write(id, status, results, error)])
  {
  }

  /**
   * A FAILED update after a COMPLETED one leaves the stored results in place:
   * the item then reads FAILED together with the completed scan's results.
   */
  lemma {:induction false} FailedKeepsEarlierResults(snap: Snapshot, accepts: Write -> bool, id: string, rs: seq<ScanResult>, tb: string)
    requires accepts(Write(id, COMPLETED, Some(rs), None)) && accepts(Write(id, FAILED, None, Some(tb)))
    ensures var s1 := UpdateSpec(snap, accepts, Some(id), COMPLETED, Some(rs), None).snap;
      var s2 := UpdateSpec(s1, accepts, Some(id), FAILED, None, Some(tb)).snap;
      s2.items[id] == Item(FAILED, Some(rs), Some(tb))
  {
  }

  /** The table, as the workers see it; `accepts` stands for the service's answer to each request. */
  class Store {
    var items: map<string, Item>
    var history: seq<Write>
    const accepts: Write -> bool

    constructor(initial: map<string, Item>, accepts: Write -> bool)
      ensures items == initial && history == [] && this.accepts == accepts
    {
      items := initial;
      history := [];
      this.accepts := accepts;
    }

    function Now(): Snapshot
      reads this
    {
      Snapshot(items, history)
    }

    /** `update_status`: build the update and send it; the answer says whether it was applied. */
    method UpdateStatus(scanId: Option<string>, status: ScanStatus, results: Option<seq<ScanResult>>, error: Option<string>)
      returns (ok: bool)
      modifies this
      ensures Update(Now(), ok) == UpdateSpec(old(Now()), accepts, scanId, status, results, error)
    {
      if scanId.None? {
        return false;
      }
      var w := Write(scanId.value, status, None, None);
      if results.Some? {
        w := w.(results := results);
      }
      if error.Some? {
        w := w.(error := error);
      }
      if !accepts(w) {
        return false;
      }
      items := items[w.scanId := Apply(Lookup(items, w.scanId), w)];
      history := history + [w];
      return true;
    }
  }
}
