/**
 * The nightly LegiScan sync (app/legiscan/sync.py and its scheduler
 * counterpart app/scheduler/sync_manager.py): which sessions are active,
 * which bills changed since the last run, how the run summary and the
 * SyncMetadata row are updated, the fallback amendment storage and the
 * keyword search over the monitored jurisdictions. Times are integers.
 */
module Sync {
  import opened Wrappers
  import opened PyValue
  import opened Errors
  import Text
  import PyMath
  import LegiscanDb
  import Amendments

  // ----- active sessions -----

  /** A session of getSessionList; an absent field is None (PyNone for session_name). */
  datatype SessionInfo = SessionInfo(sessionId: Value, sessionName: Value, yearStart: Option<int>,
                                     yearEnd: Option<int>, sineDie: Option<int>)

  /** session.get("year_end", 0) >= current_year or session.get("sine_die", 1) == 0. */
  predicate IsActive(s: SessionInfo, currentYear: int)
  {
    s.yearEnd.GetOr(0) >= currentYear || s.sineDie.GetOr(1) == 0
  }

  /** The active sessions, in the order of the list. */
  function ActiveSessions(sessions: seq<SessionInfo>, currentYear: int): (r: seq<SessionInfo>)
    ensures forall s :: s in r <==> s in sessions && IsActive(s, currentYear)
    ensures |r| <= |sessions|
  {
    if |sessions| == 0 then []
    else
      var rest := ActiveSessions(sessions[..|sessions| - 1], currentYear);
      var last := sessions[|sessions| - 1];
      assert sessions == sessions[..|sessions| - 1] + [last];
      if IsActive(last, currentYear) then rest + [last] else rest
  }

  /** A session without year_end and sine_die is never active, whatever the year. */
  lemma {:induction false} BareSessionInactive(id: Value, name: Value, yearStart: Option<int>, currentYear: int)
    requires currentYear > 0
    ensures ActiveSessions([SessionInfo(id, name, yearStart, None, None)], currentYear) == []
  {
    assert ActiveSessions([SessionInfo(id, name, yearStart, None, None)][..0], currentYear) == [];
  }

  // ----- change detection -----

  /** One entry of the master list: its key and its bill dict. */
  type MasterEntry = (string, seq<(string, Value)>)

  /**
   * Whether an entry needs updating: not the "0" metadata entry, with a
   * truthy bill_id and change_hash, and either not stored under str(bill_id)
   * or stored with another change_hash.
   */
  predicate NeedsUpdate(e: MasterEntry, stored: map<string, Value>)
  {
    var id := GetOr(e.1, "bill_id", PyNone);
    var hash := GetOr(e.1, "change_hash", PyNone);
    e.0 != "0" && Truthy(id) && Truthy(hash) && (Str(id) !in stored || stored[Str(id)] != hash)
  }

  /** The ids of the entries that need updating, in master-list order. */
  function ChangedBills(masterList: seq<MasterEntry>, stored: map<string, Value>): seq<Value>
  {
    if |masterList| == 0 then []
    else
      var rest := ChangedBills(masterList[..|masterList| - 1], stored);
      var last := masterList[|masterList| - 1];
      if NeedsUpdate(last, stored) then rest + [GetOr(last.1, "bill_id", PyNone)] else rest
  }

  /**
   * _identify_changed_bills (both versions), with stored the change_hash of
   * each stored LegiScan bill by external id.
   */
  method IdentifyChangedBills(masterList: seq<MasterEntry>, stored: map<string, Value>) returns (ids: seq<Value>)
    ensures ids == ChangedBills(masterList, stored)
  {
    ids := [];
    for i := 0 to |masterList|
      invariant ids == ChangedBills(masterList[..i], stored)
    {
      assert masterList[..i + 1][..i] == masterList[..i];
      var key := masterList[i].0;
      var info := masterList[i].1;
      if key == "0" {
        continue;
      }
      var billId := GetOr(info, "bill_id", PyNone);
      var changeHash := GetOr(info, "change_hash", PyNone);
      if !Truthy(billId) || !Truthy(changeHash) {
        continue;
      }
      if Str(billId) !in stored || stored[Str(billId)] != changeHash {
        ids := ids + [billId];
      }
    }
    assert masterList[..|masterList|] == masterList;
  }

  /** An id is reported exactly when some entry with that id needs updating. */
  lemma {:induction false} ChangedBillsIff(masterList: seq<MasterEntry>, stored: map<string, Value>, id: Value)
    ensures id in ChangedBills(masterList, stored) <==>
      exists k :: 0 <= k < |masterList| && NeedsUpdate(masterList[k], stored)
        && GetOr(masterList[k].1, "bill_id", PyNone) == id
  {
    if |masterList| > 0 {
      var init := masterList[..|masterList| - 1];
      ChangedBillsIff(init, stored, id);
      if id in ChangedBills(masterList, stored) && id !in ChangedBills(init, stored) {
        var k := |masterList| - 1;
        assert NeedsUpdate(masterList[k], stored) && GetOr(masterList[k].1, "bill_id", PyNone) == id;
      }
      if id in ChangedBills(init, stored) {
        var k :| 0 <= k < |init| && NeedsUpdate(init[k], stored) && GetOr(init[k].1, "bill_id", PyNone) == id;
        assert masterList[k] == init[k];
      }
    }
  }

  /** Once every listed bill is stored with the listed change_hash, nothing is reported. */
  lemma {:induction false} SyncedListUnchanged(masterList: seq<MasterEntry>, stored: map<string, Value>)
    requires forall k :: 0 <= k < |masterList| ==>
      var id := GetOr(masterList[k].1, "bill_id", PyNone);
      Str(id) in stored && stored[Str(id)] == GetOr(masterList[k].1, "change_hash", PyNone)
    ensures ChangedBills(masterList, stored) == []
  {
    if |masterList| > 0 {
      var init := masterList[..|masterList| - 1];
      assert forall k :: 0 <= k < |init| ==> init[k] == masterList[k];
      SyncedListUnchanged(init, stored);
    }
  }

  // ----- run summary and SyncMetadata -----

  datatype SyncStatus = Pending | InProgress | Completed | Failed | Partial

  /** str(status) of the SyncStatusEnum member, e.g. "SyncStatusEnum.partial". */
  function StatusText(s: SyncStatus): (t: string)
    ensures |t| > 15 && t[..15] == "SyncStatusEnum."
  {
    "SyncStatusEnum." +
    match s
    case Pending => "pending"
    case InProgress => "in_progress"
    case Completed => "completed"
    case Failed => "failed"
    case Partial => "partial"
  }

  /** The errors column: untouched, the count with sample messages, a critical message. */
  datatype MetaErrors = NoErrors | Samples(count: int, samples: seq<string>) | CriticalError(message: string)

  /** {"count": len(errors), "samples": errors[:5]}. */
  function ErrorRecord(errors: seq<string>): (r: MetaErrors)
    ensures r.Samples? && r.count == |errors|
    ensures |r.samples| == PyMath.Min(5, |errors|) && r.samples <= errors
  {
    Samples(|errors|, errors[..PyMath.Min(5, |errors|)])
  }

  /** The status a run ends with when it got through: partial exactly when some error was recorded. */
  function FinalStatus(errors: seq<string>): (s: SyncStatus)
    ensures s == Partial <==> errors != []
    ensures s == Completed <==> errors == []
  {
    if errors != [] then Partial else Completed
  }

  /** A SyncMetadata row. */
  class SyncMeta {
    var status: SyncStatus
    var errors: MetaErrors
    var billsUpdated: int
    var newBills: int
    var lastSuccessfulSync: Option<int>

    /** _initialize_sync: a run in progress. */
    constructor ()
      ensures status == InProgress && errors == NoErrors && lastSuccessfulSync == None
      ensures billsUpdated == 0 && newBills == 0
    {
      status := InProgress;
      errors := NoErrors;
      billsUpdated := 0;
      newBills := 0;
      lastSuccessfulSync := None;
    }
  }

  /** The summary dict of one run. */
  class SyncSummary {
    var newBills: int
    var billsUpdated: int
    var amendmentsTracked: int
    var errors: seq<string>
    var status: string
    var startTime: int
    var endTime: Option<int>

    /** The summary _initialize_sync starts with. */
    constructor (start: int)
      ensures newBills == 0 && billsUpdated == 0 && amendmentsTracked == 0 && errors == []
      ensures status == "in_progress" && startTime == start && endTime == None
    {
      newBills := 0;
      billsUpdated := 0;
      amendmentsTracked := 0;
      errors := [];
      status := "in_progress";
      startTime := start;
      endTime := None;
    }

    /** Whether a saved bill counts as new: both timestamps present and equal. */
    static predicate IsNewBill(created: Option<int>, updated: Option<int>)
    {
      created.Some? && updated.Some? && created.value == updated.value
    }

    /** The length of bill_data["amendments"] when it is a list, otherwise 0. */
    static function ListedAmendments(bill: seq<(string, Value)>): nat
    {
      match Get(bill, "amendments")
      case Some(PyList(xs)) => |xs|
      case _ => 0
    }

    /**
     * _update_bill_statistics (app/legiscan/sync.py): a bill whose
     * created_at equals its updated_at is new, any other is updated, and
     * the amendments of the bill data are counted by list length.
     */
    method UpdateBillStatistics(created: Option<int>, updated: Option<int>, bill: seq<(string, Value)>)
      modifies this
      ensures IsNewBill(created, updated) ==> newBills == old(newBills) + 1 && billsUpdated == old(billsUpdated)
      ensures !IsNewBill(created, updated) ==> newBills == old(newBills) && billsUpdated == old(billsUpdated) + 1
      ensures amendmentsTracked == old(amendmentsTracked) + ListedAmendments(bill)
      ensures errors == old(errors) && status == old(status) && startTime == old(startTime)
      ensures endTime == old(endTime)
    {
      if created.Some? && updated.Some? && created.value == updated.value {
        newBills := newBills + 1;
      } else {
        billsUpdated := billsUpdated + 1;
      }
      var amendments := Get(bill, "amendments");
      if amendments.Some? && amendments.value.PyList? {
        amendmentsTracked := amendmentsTracked + |amendments.value.items|;
      }
    }

    /** _record_bill_processing_error: the message is appended to the errors. */
    method RecordBillProcessingError(billId: Value, exceptionText: string)
      modifies this
      ensures errors == old(errors) + ["Error processing bill " + Str(billId) + ": " + exceptionText]
      ensures newBills == old(newBills) && billsUpdated == old(billsUpdated)
      ensures amendmentsTracked == old(amendmentsTracked) && status == old(status)
      ensures startTime == old(startTime) && endTime == old(endTime)
    {
      errors := errors + ["Error processing bill " + Str(billId) + ": " + exceptionText];
    }
  }

  /**
   * _finalize_sync_success: the counts are copied to the row, the run is
   * partial with an error record when errors were collected and completed
   * otherwise, and the summary takes str(status) and the end time.
   */
  method FinalizeSyncSuccess(meta: SyncMeta, summary: SyncSummary, now: int)
    modifies meta, summary
    ensures meta.billsUpdated == summary.billsUpdated && meta.newBills == summary.newBills
    ensures meta.lastSuccessfulSync == Some(now)
    ensures meta.status == FinalStatus(summary.errors)
    ensures meta.errors == if summary.errors != [] then ErrorRecord(summary.errors) else old(meta.errors)
    ensures summary.status == StatusText(meta.status) && summary.endTime == Some(now)
    ensures summary.newBills == old(summary.newBills) && summary.billsUpdated == old(summary.billsUpdated)
    ensures summary.errors == old(summary.errors) && summary.amendmentsTracked == old(summary.amendmentsTracked)
    ensures summary.startTime == old(summary.startTime)
  {
    meta.billsUpdated := summary.billsUpdated;
    meta.newBills := summary.newBills;
    meta.lastSuccessfulSync := Some(now);
    if summary.errors != [] {
      meta.status := Partial;
      meta.errors := Samples(|summary.errors|, summary.errors[..PyMath.Min(5, |summary.errors|)]);
    } else {
      meta.status := Completed;
    }
    summary.status := StatusText(meta.status);
    summary.endTime := Some(now);
  }

  /**
   * _update_sync_metadata (app/scheduler/sync_manager.py): nothing without
   * a row; otherwise the same status rule and error record, and the
   * summary is left as it is.
   */
  method UpdateSyncMetadata(meta: SyncMeta?, summary: SyncSummary, now: int)
    modifies meta
    ensures meta != null ==> (meta.status == FinalStatus(summary.errors)
      && meta.lastSuccessfulSync == Some(now)
      && meta.billsUpdated == summary.billsUpdated && meta.newBills == summary.newBills
      && meta.errors == if summary.errors != [] then ErrorRecord(summary.errors) else old(meta.errors))
  {
    if meta == null {
      return;
    }
    meta.status := if summary.errors != [] then Partial else Completed;
    meta.lastSuccessfulSync := Some(now);
    meta.billsUpdated := summary.billsUpdated;
    meta.newBills := summary.newBills;
    if summary.errors != [] {
      meta.errors := Samples(|summary.errors|, summary.errors[..PyMath.Min(5, |summary.errors|)]);
    }
  }

  const FatalPrefix := "Fatal error in sync operation: "

  /**
   * _handle_sync_critical_error: the row fails with the message as its
   * critical error, and the summary fails with the message appended and
   * the end time set.
   */
  method HandleSyncCriticalError(meta: SyncMeta, summary: SyncSummary, exceptionText: string, now: int)
    modifies meta, summary
    ensures meta.status == Failed && meta.errors == CriticalError(FatalPrefix + exceptionText)
    ensures meta.billsUpdated == old(meta.billsUpdated) && meta.newBills == old(meta.newBills)
    ensures meta.lastSuccessfulSync == old(meta.lastSuccessfulSync)
    ensures summary.status == "failed" && summary.endTime == Some(now)
    ensures summary.errors == old(summary.errors) + [FatalPrefix + exceptionText]
    ensures summary.newBills == old(summary.newBills) && summary.billsUpdated == old(summary.billsUpdated)
    ensures summary.amendmentsTracked == old(summary.amendmentsTracked) && summary.startTime == old(summary.startTime)
  {
    var message := FatalPrefix + exceptionText;
    meta.status := Failed;
    meta.errors := CriticalError(message);
    summary.status := "failed";
    summary.errors := summary.errors + [message];
    summary.endTime := Some(now);
  }

  /** error_type.replace('_', ' ').title(). */
  function ErrorLabel(errorType: string): string
  {
    Text.Title(Text.ReplaceChar(errorType, '_', ' '))
  }

  /** The label is the error type, letter for letter up to case, with every underscore read as a space. */
  lemma {:induction false} ErrorLabelReads(errorType: string)
    ensures |ErrorLabel(errorType)| == |errorType|
    ensures forall i :: 0 <= i < |errorType| ==>
      Text.LowerChar(ErrorLabel(errorType)[i]) == Text.LowerChar(if errorType[i] == '_' then ' ' else errorType[i])
    ensures '_' !in ErrorLabel(errorType)
  {
    var spaced := Text.ReplaceChar(errorType, '_', ' ');
    var titled := ErrorLabel(errorType);
    assert forall i :: 0 <= i < |titled| ==> Text.Lower(titled)[i] == Text.LowerChar(titled[i]);
  }

  /**
   * _handle_sync_error: the summary gets "<Label>: <exception>"; with a row,
   * _record_critical_error fails it with the bare exception text. The
   * result is the message that is logged.
   */
  method HandleSyncError(meta: SyncMeta?, summary: SyncSummary, errorType: string, exceptionText: string)
    returns (logged: string)
    modifies meta, summary
    ensures logged == ErrorLabel(errorType) + " in nightly sync: " + exceptionText
    ensures summary.errors == old(summary.errors) + [ErrorLabel(errorType) + ": " + exceptionText]
    ensures summary.newBills == old(summary.newBills) && summary.billsUpdated == old(summary.billsUpdated)
    ensures summary.amendmentsTracked == old(summary.amendmentsTracked) && summary.status == old(summary.status)
    ensures summary.endTime == old(summary.endTime) && summary.startTime == old(summary.startTime)
    ensures meta != null ==> (meta.status == Failed && meta.errors == CriticalError(exceptionText)
      && meta.billsUpdated == old(meta.billsUpdated) && meta.newBills == old(meta.newBills)
      && meta.lastSuccessfulSync == old(meta.lastSuccessfulSync))
  {
    var titled := ErrorLabel(errorType);
    logged := titled + " in nightly sync: " + exceptionText;
    summary.errors := summary.errors + [titled + ": " + exceptionText];
    if meta != null {
      meta.status := Failed;
      meta.errors := CriticalError(exceptionText);
    }
  }

  // ----- fallback amendment storage (sync_manager) -----

  /**
   * raw_data as _store_amendments_in_raw_data reads it: a dict as it is, a
   * string through json.loads (parse), {} for invalid JSON and for any
   * other value. None means json.loads gave something other than a dict,
   * on which the first dict operation raises a TypeError.
   */
  function FallbackRaw(raw: Value, parse: string -> Option<Value>): (r: Option<seq<(string, Value)>>)
    ensures raw.PyDict? ==> r == Some(raw.entries)
    ensures !raw.PyDict? && !raw.PyStr? ==> r == Some([])
  {
    match raw
    case PyDict(es) => Some(es)
    case PyStr(s) =>
      (match parse(s)
       case None => Some([])
       case Some(PyDict(es)) => Some(es)
       case Some(_) => None)
    case _ => Some([])
  }

  /**
   * raw_data["amendments"] as a sequence to iterate and whether it can be
   * appended to, after a missing key is set to []. Only an empty str, dict
   * or bytes iterates without touching .get; anything else that is not a
   * list fails.
   */
  function FallbackField(d: seq<(string, Value)>): Option<(seq<Value>, bool)>
  {
    match Get(d, "amendments")
    case None => Some(([], true))
    case Some(PyList(xs)) => Some((xs, true))
    case Some(PyStr(s)) => if s == [] then Some(([], false)) else None
    case Some(PyDict(es)) => if es == [] then Some(([], false)) else None
    case Some(PyBytes(bs)) => if bs == [] then Some(([], false)) else None
    case Some(_) => None
  }

  /**
   * The amendments to append: a truthy id not among the ids listed before
   * the call. The set of listed ids is not updated while appending.
   */
  function NewAmendments(amendments: seq<seq<(string, Value)>>, listed: seq<Value>): (r: seq<Value>)
    ensures |r| <= |amendments|
    ensures forall x :: x in r ==> (x.PyDict? && LegiscanDb.Tracked(x.entries)
      && GetOr(x.entries, "amendment_id", PyNone) !in listed)
  {
    if |amendments| == 0 then []
    else
      var rest := NewAmendments(amendments[..|amendments| - 1], listed);
      var last := amendments[|amendments| - 1];
      var id := GetOr(last, "amendment_id", PyNone);
      if Truthy(id) && id !in listed then rest + [PyDict(last)] else rest
  }

  /**
   * The raw_api_response after _store_amendments_in_raw_data. Every
   * failure it catches (TypeError, AttributeError) happens before anything
   * is changed and leaves the field as it was; otherwise the dict is
   * written back, with the new amendments appended.
   */
  function FallbackStore(raw: Value, parse: string -> Option<Value>, amendments: seq<seq<(string, Value)>>): Value
  {
    match FallbackRaw(raw, parse)
    case None => raw
    case Some(d) =>
      match FallbackField(d)
      case None => raw
      case Some((xs, appendable)) =>
        match Amendments.TruthyIds(xs)
        case Err(_) => raw
        case Ok(listed) =>
          var added := NewAmendments(amendments, listed);
          if !appendable then (if added == [] then PyDict(d) else raw)
          else PyDict(Set(d, "amendments", PyList(xs + added)))
  }

  /** _store_amendments_in_raw_data, the loop that appends to the stored list. */
  method StoreAmendmentsInRawData(bill: LegiscanDb.Legislation, amendments: seq<seq<(string, Value)>>,
                                  parse: string -> Option<Value>)
    modifies bill
    ensures bill.rawApiResponse == FallbackStore(old(bill.rawApiResponse), parse, amendments)
    ensures bill.id == old(bill.id)
  {
    var raw := FallbackRaw(bill.rawApiResponse, parse);
    if raw.None? {
      return;
    }
    var field := FallbackField(raw.value);
    if field.None? {
      return;
    }
    var xs := field.value.0;
    var appendable := field.value.1;
    var listed := Amendments.TruthyIds(xs);
    if listed.Err? {
      return;
    }
    var added: seq<Value> := [];
    for i := 0 to |amendments|
      invariant added == NewAmendments(amendments[..i], listed.value)
      invariant !appendable ==> added == []
    {
      assert amendments[..i + 1][..i] == amendments[..i];
      var id := GetOr(amendments[i], "amendment_id", PyNone);
      if Truthy(id) && id !in listed.value {
        if !appendable {
          assert NewAmendments(amendments[..i + 1], listed.value) != [];
          FallbackFailsWhole(amendments, listed.value, i + 1);
          return;
        }
        added := added + [PyDict(amendments[i])];
      }
    }
    assert amendments[..|amendments|] == amendments;
    assert FallbackStore(old(bill.rawApiResponse), parse, amendments)
      == if !appendable then PyDict(raw.value) else PyDict(Set(raw.value, "amendments", PyList(xs + added)));
    if !appendable {
      bill.rawApiResponse := PyDict(raw.value);
    } else {
      bill.rawApiResponse := PyDict(Set(raw.value, "amendments", PyList(xs + added)));
    }
  }

  /** A prefix with something to append makes the whole batch have something to append. */
  lemma {:induction false} FallbackFailsWhole(amendments: seq<seq<(string, Value)>>, listed: seq<Value>, k: nat)
    requires k <= |amendments| && NewAmendments(amendments[..k], listed) != []
    ensures NewAmendments(amendments, listed) != []
    decreases |amendments| - k
  {
    if k < |amendments| {
      assert amendments[..k + 1][..k] == amendments[..k];
      FallbackFailsWhole(amendments, listed, k + 1);
    } else {
      assert amendments[..k] == amendments;
    }
  }

  /** Every element is an amendment dict with a truthy id. */
  predicate TrackedDicts(added: seq<Value>)
  {
    forall i :: 0 <= i < |added| ==> added[i].PyDict? && LegiscanDb.Tracked(added[i].entries)
  }

  /** The ids of a sequence of amendment dicts, in order. */
  function AddedIds(added: seq<Value>): (ids: seq<Value>)
    requires TrackedDicts(added)
    ensures |ids| == |added|
    ensures forall i :: 0 <= i < |added| ==> ids[i] == GetOr(added[i].entries, "amendment_id", PyNone)
  {
    if |added| == 0 then []
    else AddedIds(added[..|added| - 1]) + [GetOr(added[|added| - 1].entries, "amendment_id", PyNone)]
  }

  /** Appending dicts with truthy ids to a readable list lists their ids after the old ones. */
  lemma {:induction false} TruthyIdsOfAdded(xs: seq<Value>, added: seq<Value>)
    requires Amendments.TruthyIds(xs).Ok? && TrackedDicts(added)
    ensures Amendments.TruthyIds(xs + added) == Ok(Amendments.TruthyIds(xs).value + AddedIds(added))
    decreases |added|
  {
    if |added| == 0 {
      assert xs + added == xs;
      assert AddedIds(added) == [];
      assert Amendments.TruthyIds(xs).value + [] == Amendments.TruthyIds(xs).value;
    } else {
      var n := |added| - 1;
      var init := added[..n];
      var last := added[n];
      TruthyIdsOfAdded(xs, init);
      var w := xs + init;
      assert PyDict(last.entries) == last;
      assert xs + added == w + [last];
      Amendments.TruthyIdsAppend(w, last.entries);
      var id := GetOr(last.entries, "amendment_id", PyNone);
      assert Amendments.TruthyIds(xs).value + AddedIds(init) + [id]
        == Amendments.TruthyIds(xs).value + AddedIds(added);
    }
  }

  /** An amendment that NewAmendments passes over is listed already or has a falsy id. */
  lemma {:induction false} NewAmendmentsCovers(amendments: seq<seq<(string, Value)>>, listed: seq<Value>, k: nat)
    requires k < |amendments| && LegiscanDb.Tracked(amendments[k])
    ensures GetOr(amendments[k], "amendment_id", PyNone) in listed
      || PyDict(amendments[k]) in NewAmendments(amendments, listed)
    decreases |amendments|
  {
    var init := amendments[..|amendments| - 1];
    if k < |amendments| - 1 {
      assert init[k] == amendments[k];
      NewAmendmentsCovers(init, listed, k);
    }
  }

  /**
   * When the fallback writes a list back, every amendment with a truthy
   * id is listed in it, after every id that was listed before.
   */
  lemma {:induction false} FallbackListsEvery(raw: Value, parse: string -> Option<Value>, amendments: seq<seq<(string, Value)>>, k: nat)
    requires k < |amendments| && LegiscanDb.Tracked(amendments[k])
    requires FallbackRaw(raw, parse).Some? && FallbackField(FallbackRaw(raw, parse).value).Some?
    requires FallbackField(FallbackRaw(raw, parse).value).value.1
    requires Amendments.TruthyIds(FallbackField(FallbackRaw(raw, parse).value).value.0).Ok?
    ensures var after := FallbackStore(raw, parse, amendments);
      Amendments.ListedIds(after, parse).Ok?
      && GetOr(amendments[k], "amendment_id", PyNone) in Amendments.ListedIds(after, parse).value
  {
    var d := FallbackRaw(raw, parse).value;
    var xs := FallbackField(d).value.0;
    var listed := Amendments.TruthyIds(xs).value;
    var added := NewAmendments(amendments, listed);
    var after := PyDict(Set(d, "amendments", PyList(xs + added)));
    assert FallbackStore(raw, parse, amendments) == after;
    GetSet(d, "amendments", PyList(xs + added), "amendments");
    assert Amendments.ListedIds(after, parse) == Amendments.TruthyIds(xs + added);
    assert forall i :: 0 <= i < |added| ==> added[i] in added;
    TruthyIdsOfAdded(xs, added);
    NewAmendmentsCovers(amendments, listed, k);
    var id := GetOr(amendments[k], "amendment_id", PyNone);
    if id !in listed {
      var j :| 0 <= j < |added| && added[j] == PyDict(amendments[k]);
      assert AddedIds(added)[j] == id;
    }
  }

  /** Two amendments with the same new id in one batch are both appended. */
  lemma {:induction false} BatchDuplicatesKept(parse: string -> Option<Value>)
    ensures var a := [("amendment_id", PyInt(7))];
      FallbackStore(PyNone, parse, [a, a]) == PyDict([("amendments", PyList([PyDict(a), PyDict(a)]))])
  {
    var a := [("amendment_id", PyInt(7))];
    assert FallbackRaw(PyNone, parse) == Some([]);
    assert FallbackField([]) == Some(([], true));
    assert Amendments.TruthyIds([]) == Ok([]);
    assert [a, a][..1] == [a];
    assert [a][..0] == [];
    assert NewAmendments([a], []) == [PyDict(a)];
    assert NewAmendments([a, a], []) == [PyDict(a), PyDict(a)];
    var none: seq<Value> := [];
    assert none + [PyDict(a), PyDict(a)] == [PyDict(a), PyDict(a)];
  }

  // ----- amendments of a saved bill (sync_manager) -----

  /**
   * The counting of _process_bill after the bill is saved: a comparison of
   * the timestamps that fails (None) counts as updated; a non-empty
   * amendments list is tracked, and when tracking fails the session is
   * rolled back (the row's raw_api_response is as it was) and the
   * fallback storage runs instead. The result is _get_bill_id_safely.
   */
  method RecordSavedBill(summary: SyncSummary, bill: LegiscanDb.Legislation, created: Option<int>,
                         updated: Option<int>, amendments: seq<seq<(string, Value)>>,
                         hasAmendmentModel: bool, parse: string -> Option<Value>) returns (billId: Option<int>)
    modifies summary, bill
    ensures SyncSummary.IsNewBill(created, updated) ==>
      (summary.newBills == old(summary.newBills) + 1 && summary.billsUpdated == old(summary.billsUpdated))
    ensures !SyncSummary.IsNewBill(created, updated) ==>
      (summary.newBills == old(summary.newBills) && summary.billsUpdated == old(summary.billsUpdated) + 1)
    ensures var t := Amendments.TrackWithoutModel(old(bill.rawApiResponse), parse, amendments);
      var tracked := amendments != [] && (hasAmendmentModel || t.Ok?);
      summary.amendmentsTracked == old(summary.amendmentsTracked)
        + (if tracked then LegiscanDb.CountTracked(amendments) else 0)
    ensures var t := Amendments.TrackWithoutModel(old(bill.rawApiResponse), parse, amendments);
      bill.rawApiResponse == (
        if amendments == [] || hasAmendmentModel then old(bill.rawApiResponse)
        else if t.Ok? then t.value
        else FallbackStore(old(bill.rawApiResponse), parse, amendments))
    ensures summary.errors == old(summary.errors) && summary.status == old(summary.status)
    ensures billId == Amendments.GetBillIdSafely(bill.id)
  {
    if created.Some? && updated.Some? && created.value == updated.value {
      summary.newBills := summary.newBills + 1;
    } else {
      summary.billsUpdated := summary.billsUpdated + 1;
    }
    if amendments != [] {
      var raw0 := bill.rawApiResponse;
      var r := Amendments.TrackAmendments(bill, amendments, hasAmendmentModel, parse);
      if r.Ok? {
        summary.amendmentsTracked := summary.amendmentsTracked + r.value;
      } else {
        bill.rawApiResponse := raw0;
        StoreAmendmentsInRawData(bill, amendments, parse);
      }
    }
    billId := Amendments.GetBillIdSafely(bill.id);
  }

  // ----- keyword search -----

  /** monitored_jurisdictions. */
  const MonitoredJurisdictions: seq<string> := ["US", "TX"]

  /** One result of lookup_bills_by_keywords. */
  datatype Hit = Hit(billId: Value, changeHash: Value, relevance: Value, state: string, billNumber: Value,
                     title: Value)

  function HitOf(item: seq<(string, Value)>, state: string): Hit
  {
    Hit(GetOr(item, "bill_id", PyNone), GetOr(item, "change_hash", PyNone), GetOr(item, "relevance", PyInt(0)),
        state, GetOr(item, "bill_number", PyNone), GetOr(item, "title", PyStr("")))
  }

  /**
   * data.get("searchresult", {}) of a getSearchRaw response; None when the
   * request raised or the result is not a dict (the state is then skipped).
   */
  function SearchEntries(data: Option<seq<(string, Value)>>): Option<seq<(string, Value)>>
  {
    match data
    case None => None
    case Some(d) =>
      match Get(d, "searchresult")
      case None => Some([])
      case Some(PyDict(es)) => Some(es)
      case Some(_) => None
  }

  /** Whether an entry of the search result is a bill: not the summary, and a dict. */
  predicate IsBillEntry(e: (string, Value))
  {
    e.0 != "summary" && e.1.PyDict?
  }

  /**
   * The inner loop over one state's entries: each bill entry is appended,
   * and the loop stops as soon as the results reach the limit.
   */
  function CollectHits(results: seq<Hit>, state: string, es: seq<(string, Value)>, limit: int): seq<Hit>
    decreases |es|
  {
    if |es| == 0 then results
    else if IsBillEntry(es[0]) then
      var r := results + [HitOf(es[0].1.entries, state)];
      if |r| >= limit then r else CollectHits(r, state, es[1..], limit)
    else CollectHits(results, state, es[1..], limit)
  }

  /** The outer loop over the states, each searched for the query. */
  function LookupFrom(results: seq<Hit>, states: seq<string>, query: string,
                      search: (string, string) -> Option<seq<(string, Value)>>, limit: int): seq<Hit>
    decreases |states|
  {
    if |states| == 0 then results
    else
      var es := SearchEntries(search(states[0], query));
      var after := if es.Some? then CollectHits(results, states[0], es.value, limit) else results;
      LookupFrom(after, states[1..], query, search, limit)
  }

  /** lookup_bills_by_keywords as written: [] for no keywords, otherwise the search for the terms joined by " AND ". */
  function LookupBills(keywords: seq<string>, limit: int,
                       search: (string, string) -> Option<seq<(string, Value)>>): seq<Hit>
  {
    if keywords == [] then [] else LookupFrom([], MonitoredJurisdictions, Text.Join(keywords, " AND "), search, limit)
  }

  /** lookup_bills_by_keywords, with search the getSearchRaw request of a state and a query. */
  method LookupBillsByKeywords(keywords: seq<string>, limit: int,
                               search: (string, string) -> Option<seq<(string, Value)>>) returns (results: seq<Hit>)
    ensures results == LookupBills(keywords, limit, search)
  {
    if keywords == [] {
      return [];
    }
    var query := Text.Join(keywords, " AND ");
    results := [];
    for s := 0 to |MonitoredJurisdictions|
      invariant LookupFrom(results, MonitoredJurisdictions[s..], query, search, limit)
        == LookupFrom([], MonitoredJurisdictions, query, search, limit)
    {
      var state := MonitoredJurisdictions[s];
      var es := SearchEntries(search(state, query));
      ghost var before := results;
      if es.Some? {
        var entries := es.value;
        var j := 0;
        while j < |entries|
          invariant 0 <= j <= |entries|
          invariant CollectHits(results, state, entries[j..], limit) == CollectHits(before, state, entries, limit)
        {
          assert entries[j..][1..] == entries[j + 1..];
          if IsBillEntry(entries[j]) {
            results := results + [HitOf(entries[j].1.entries, state)];
            if |results| >= limit {
              break;
            }
          }
          j := j + 1;
        }
      }
      assert MonitoredJurisdictions[s..][1..] == MonitoredJurisdictions[s + 1..];
    }
  }

  /** One state can go past the limit by at most one: the check comes after the append. */
  lemma {:induction false} CollectHitsBound(results: seq<Hit>, state: string, es: seq<(string, Value)>, limit: int)
    ensures results <= CollectHits(results, state, es, limit)
    ensures |CollectHits(results, state, es, limit)| <= PyMath.Max(limit, |results| + 1)
    decreases |es|
  {
    if |es| > 0 {
      if IsBillEntry(es[0]) {
        var r := results + [HitOf(es[0].1.entries, state)];
        if |r| < limit {
          CollectHitsBound(r, state, es[1..], limit);
        }
      } else {
        CollectHitsBound(results, state, es[1..], limit);
      }
    }
  }

  /** Each state searched can add one result beyond the limit. */
  lemma {:induction false} LookupFromBound(results: seq<Hit>, states: seq<string>, query: string,
                                           search: (string, string) -> Option<seq<(string, Value)>>, limit: int)
    ensures |LookupFrom(results, states, query, search, limit)| <= PyMath.Max(limit, |results|) + |states|
    decreases |states|
  {
    if |states| > 0 {
      var es := SearchEntries(search(states[0], query));
      var after := if es.Some? then CollectHits(results, states[0], es.value, limit) else results;
      if es.Some? {
        CollectHitsBound(results, states[0], es.value, limit);
      }
      LookupFromBound(after, states[1..], query, search, limit);
    }
  }

  /** As written, the results never exceed the limit by more than the two monitored jurisdictions. */
  lemma {:induction false} LookupBillsBound(keywords: seq<string>, limit: int,
                         search: (string, string) -> Option<seq<(string, Value)>>)
    ensures |LookupBills(keywords, limit, search)| <= PyMath.Max(limit, 0) + 2
  {
    if keywords != [] {
      LookupFromBound([], MonitoredJurisdictions, Text.Join(keywords, " AND "), search, limit);
    }
  }

  /** A search that finds one bill in every state. */
  function OneBillEverywhere(state: string, query: string): Option<seq<(string, Value)>>
  {
    Some([("searchresult", PyDict([("summary", PyDict([])), ("0", PyDict([("bill_id", PyInt(1))]))]))])
  }

  /** With limit 1 and one bill in each state, the lookup as written returns two results. */
  lemma {:induction false} LookupExceedsLimit()
    ensures |LookupBills(["health"], 1, OneBillEverywhere)| == 2
  {
    var es := [("summary", PyDict([])), ("0", PyDict([("bill_id", PyInt(1))]))];
    assert SearchEntries(OneBillEverywhere("US", "health")) == Some(es);
    assert SearchEntries(OneBillEverywhere("TX", "health")) == Some(es);
    assert es[1..] == [("0", PyDict([("bill_id", PyInt(1))]))];
    assert |CollectHits([], "US", es, 1)| == 1;
    var first := CollectHits([], "US", es, 1);
    assert |CollectHits(first, "TX", es, 1)| == 2;
    assert MonitoredJurisdictions[1..][1..] == [];
  }

  /** The inner loop with the limit checked before each append. */
  function CollectHitsCapped(results: seq<Hit>, state: string, es: seq<(string, Value)>, limit: int): seq<Hit>
    decreases |es|
  {
    if |es| == 0 || |results| >= limit then results
    else if IsBillEntry(es[0]) then CollectHitsCapped(results + [HitOf(es[0].1.entries, state)], state, es[1..], limit)
    else CollectHitsCapped(results, state, es[1..], limit)
  }

  /** The outer loop, stopping once the limit is reached. */
  function LookupCappedFrom(results: seq<Hit>, states: seq<string>, query: string,
                            search: (string, string) -> Option<seq<(string, Value)>>, limit: int): seq<Hit>
    decreases |states|
  {
    if |states| == 0 || |results| >= limit then results
    else
      var es := SearchEntries(search(states[0], query));
      var after := if es.Some? then CollectHitsCapped(results, states[0], es.value, limit) else results;
      LookupCappedFrom(after, states[1..], query, search, limit)
  }

  /** lookup_bills_by_keywords with the limit applied to the whole search. */
  function LookupBillsCapped(keywords: seq<string>, limit: int,
                             search: (string, string) -> Option<seq<(string, Value)>>): seq<Hit>
  {
    if keywords == [] then [] else LookupCappedFrom([], MonitoredJurisdictions, Text.Join(keywords, " AND "), search, limit)
  }

  lemma {:induction false} CollectHitsCappedBound(results: seq<Hit>, state: string, es: seq<(string, Value)>, limit: int)
    ensures results <= CollectHitsCapped(results, state, es, limit)
    ensures |CollectHitsCapped(results, state, es, limit)| <= PyMath.Max(limit, |results|)
    decreases |es|
  {
    if |es| > 0 && |results| < limit {
      if IsBillEntry(es[0]) {
        CollectHitsCappedBound(results + [HitOf(es[0].1.entries, state)], state, es[1..], limit);
      } else {
        CollectHitsCappedBound(results, state, es[1..], limit);
      }
    }
  }

  lemma {:induction false} LookupCappedFromBound(results: seq<Hit>, states: seq<string>, query: string,
                                                 search: (string, string) -> Option<seq<(string, Value)>>, limit: int)
    ensures |LookupCappedFrom(results, states, query, search, limit)| <= PyMath.Max(limit, |results|)
    decreases |states|
  {
    if |states| > 0 && |results| < limit {
      var es := SearchEntries(search(states[0], query));
      var after := if es.Some? then CollectHitsCapped(results, states[0], es.value, limit) else results;
      if es.Some? {
        CollectHitsCappedBound(results, states[0], es.value, limit);
      }
      LookupCappedFromBound(after, states[1..], query, search, limit);
    }
  }

  /** With the limit applied to the whole search, the results never exceed it. */
  lemma {:induction false} LookupBillsCappedWithinLimit(keywords: seq<string>, limit: int,
                                     search: (string, string) -> Option<seq<(string, Value)>>)
    ensures |LookupBillsCapped(keywords, limit, search)| <= PyMath.Max(limit, 0)
  {
    if keywords != [] {
      LookupCappedFromBound([], MonitoredJurisdictions, Text.Join(keywords, " AND "), search, limit);
    }
  }
}
