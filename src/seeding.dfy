/**
 * Historical seeding (app/scheduler/seeding.py): the start-date fallback,
 * the date-range test for a bill, the session filter, the per-session
 * walk over a master list with its bill cap, and the bulk analysis that
 * follows with its stop rules.  The summary dictionaries the source
 * mutates are the classes SeedingSummary and SessionSummary.
 */
module Seeding {
  import opened Wrappers
  import opened PyValue
  import opened Errors
  import Text
  import Sync
  import LegiscanModels

  type Date = LegiscanModels.Date

  /** A naive datetime: a calendar date and the seconds past midnight. */
  datatype Moment = Moment(date: Date, second: int)

  /** datetime's `<`: by year, month, day, then time of day. */
  predicate Before(a: Moment, b: Moment)
  {
    a.date.year < b.date.year
    || (a.date.year == b.date.year
        && (a.date.month < b.date.month
            || (a.date.month == b.date.month
                && (a.date.day < b.date.day
                    || (a.date.day == b.date.day && a.second < b.second)))))
  }

  lemma {:induction false} BeforeTransitive(a: Moment, b: Moment, c: Moment)
    requires Before(a, b) && Before(b, c)
    ensures Before(a, c)
  {
  }

  /** Midnight of a date, which is what strptime with "%Y-%m-%d" yields. */
  function Midnight(d: Date): Moment
  {
    Moment(d, 0)
  }

  const DefaultStart: Moment := Midnight(LegiscanModels.Date(2025, 1, 1))

  /**
   * parse_start_date: fromisoformat (the oracle, None for a ValueError),
   * falling back to 2025-01-01 at midnight.
   */
  function ParseStartDate(s: string, fromIso: string -> Option<Moment>): (m: Moment)
    ensures fromIso(s).Some? ==> m == fromIso(s).value
    ensures fromIso(s).None? ==> m == DefaultStart && m.date.year == 2025
  {
    match fromIso(s)
    case Some(t) => t
    case None => DefaultStart
  }

  // ---------------------------------------------------------------------
  // is_bill_in_date_range

  /** bill_data.get("status_date", ""). */
  function StatusDate(bill: seq<(string, Value)>): Value
  {
    GetOr(bill, "status_date", PyStr(""))
  }

  /** A bill the range test rejects: a parseable date strictly before the start. */
  predicate DatedBefore(bill: seq<(string, Value)>, start: Moment, strptime: string -> Option<Date>)
  {
    var sd := StatusDate(bill);
    sd.PyStr? && sd.s != "" && strptime(sd.s).Some? && Before(Midnight(strptime(sd.s).value), start)
  }

  /**
   * is_bill_in_date_range.  Only a ValueError from strptime is suppressed:
   * a truthy status_date that is not a string makes strptime raise a
   * TypeError, which reaches the caller.
   */
  function IsBillInDateRange(bill: seq<(string, Value)>, start: Moment, strptime: string -> Option<Date>)
    : (r: Result<bool, Error>)
    ensures !Truthy(StatusDate(bill)) ==> r == Ok(true)
    ensures r.Err? <==> Truthy(StatusDate(bill)) && !StatusDate(bill).PyStr?
    ensures r == Ok(false) <==> DatedBefore(bill, start, strptime)
  {
    var sd := StatusDate(bill);
    if !Truthy(sd) then Ok(true)
    else if !sd.PyStr? then
      Err(TypeError("strptime() argument 1 must be str, not " + TypeName(sd)))
    else
      match strptime(sd.s)
      case None => Ok(true)
      case Some(d) => Ok(!Before(Midnight(d), start))
  }

  /** A bill without a status_date is in range. */
  lemma {:induction false} MissingDateInRange(bill: seq<(string, Value)>, start: Moment, strptime: string -> Option<Date>)
    requires !HasKey(bill, "status_date")
    ensures IsBillInDateRange(bill, start, strptime) == Ok(true)
  {
    GetFindsKey(bill, "status_date");
  }

  /** Moving the start earlier never drops a bill from the range. */
  lemma {:induction false} InRangeForEarlierStart(bill: seq<(string, Value)>, s1: Moment, s2: Moment, strptime: string -> Option<Date>)
    requires s1 == s2 || Before(s1, s2)
    requires IsBillInDateRange(bill, s2, strptime) == Ok(true)
    ensures IsBillInDateRange(bill, s1, strptime) == Ok(true)
  {
    var sd := StatusDate(bill);
    if sd.PyStr? && sd.s != "" && strptime(sd.s).Some? && s1 != s2 {
      var m := Midnight(strptime(sd.s).value);
      assert !Before(m, s2);
      if Before(m, s1) {
        BeforeTransitive(m, s1, s2);
      }
    }
  }

  /** A bill dated on the start day is in range when the start is that day's midnight. */
  lemma {:induction false} StartDayInRange(bill: seq<(string, Value)>, d: Date, strptime: string -> Option<Date>)
    requires StatusDate(bill).PyStr? && strptime(StatusDate(bill).s) == Some(d)
    ensures IsBillInDateRange(bill, Midnight(d), strptime) == Ok(true)
  {
  }

  // ---------------------------------------------------------------------
  // The session filter of process_jurisdiction_for_seeding

  /** session.get("year_start", 0) >= year or session.get("year_end", 0) >= year. */
  predicate IsRelevant(s: Sync.SessionInfo, startYear: int)
  {
    s.yearStart.GetOr(0) >= startYear || s.yearEnd.GetOr(0) >= startYear
  }

  function RelevantSessions(sessions: seq<Sync.SessionInfo>, startYear: int): (r: seq<Sync.SessionInfo>)
    ensures forall s :: s in r <==> s in sessions && IsRelevant(s, startYear)
    ensures |r| <= |sessions|
  {
    if sessions == [] then []
    else
      var rest := RelevantSessions(sessions[..|sessions| - 1], startYear);
      var last := sessions[|sessions| - 1];
      assert sessions == sessions[..|sessions| - 1] + [last];
      if IsRelevant(last, startYear) then rest + [last] else rest
  }

  /** An earlier start year keeps every session a later one keeps. */
  lemma {:induction false} RelevantForEarlierYear(sessions: seq<Sync.SessionInfo>, y1: int, y2: int)
    requires y1 <= y2
    ensures forall s :: s in RelevantSessions(sessions, y2) ==> s in RelevantSessions(sessions, y1)
  {
  }

  /** A session that has not begun by the start year nor ended by it is skipped. */
  lemma {:induction false} EarlySessionSkipped(sessions: seq<Sync.SessionInfo>, s: Sync.SessionInfo, startYear: int)
    requires s.yearStart.GetOr(0) < startYear && s.yearEnd.GetOr(0) < startYear
    ensures s !in RelevantSessions(sessions, startYear)
  {
  }

  // ---------------------------------------------------------------------
  // The summaries

  /** The per-session summary dict built by process_session_for_seeding. */
  class SessionSummary {
    const state: string
    const sessionId: Value
    const sessionName: Value
    var billsFound: int
    var billsAdded: int
    var billsAnalyzed: int
    var errors: seq<string>

    constructor (state: string, sessionId: Value, sessionName: Value)
      ensures this.state == state && this.sessionId == sessionId && this.sessionName == sessionName
      ensures billsFound == 0 && billsAdded == 0 && billsAnalyzed == 0 && errors == []
    {
      this.state := state;
      this.sessionId := sessionId;
      this.sessionName := sessionName;
      billsFound := 0;
      billsAdded := 0;
      billsAnalyzed := 0;
      errors := [];
    }
  }

  /** The run summary of initialize_seeding_summary, with "max_bills" set by seed_historical_data. */
  class SeedingSummary {
    const startDate: string
    const maxBills: int
    const startTime: int
    var billsAdded: int
    var billsAnalyzed: int
    var errors: seq<string>
    var sessionsProcessed: seq<SessionSummary>
    var endTime: Option<int>

    constructor (startDate: string, maxBills: int, now: int)
      ensures this.startDate == startDate && this.maxBills == maxBills && startTime == now
      ensures billsAdded == 0 && billsAnalyzed == 0 && errors == [] && sessionsProcessed == []
      ensures endTime == None
    {
      this.startDate := startDate;
      this.maxBills := maxBills;
      startTime := now;
      billsAdded := 0;
      billsAnalyzed := 0;
      errors := [];
      sessionsProcessed := [];
      endTime := None;
    }
  }

  // ---------------------------------------------------------------------
  // process_bills_for_session and process_new_bill

  /**
   * What the per-bill step consults: the external ids already stored for
   * LegiScan, get_bill (an empty dict stands for a falsy answer),
   * save_bill_to_db (whether a bill object came back), strptime and the
   * start of the range.
   */
  datatype Source = Source(
    existing: set<string>,
    getBill: Value -> Result<seq<(string, Value)>, Error>,
    save: seq<(string, Value)> -> Result<bool, Error>,
    strptime: string -> Option<Date>,
    start: Moment)

  /** The counters one call moves, and the messages it logs to both summaries. */
  datatype Tally = Tally(added: int, found: int, sessionAdded: int, errors: seq<string>)

  /** summary.get("max_bills") and summary["bills_added"] >= summary["max_bills"]. */
  predicate CapReached(added: int, maxBills: int)
  {
    maxBills != 0 && added >= maxBills
  }

  function BillError(id: Value, e: Error): string
  {
    "Error processing bill " + Str(id) + ": " + Message(e)
  }

  /** process_new_bill: whether the bill was added, and the error it logged. */
  function NewBillOutcome(id: Value, src: Source): (r: (bool, Option<string>))
    ensures r.0 ==> r.1.None?
  {
    match src.getBill(id)
    case Err(e) => (false, Some(BillError(id, e)))
    case Ok(data) =>
      if data == [] then (false, None)
      else
        match IsBillInDateRange(data, src.start, src.strptime)
        case Err(e) => (false, Some(BillError(id, e)))
        case Ok(inRange) =>
          if !inRange then (false, None)
          else
            match src.save(data)
            case Err(e) => (false, Some(BillError(id, e)))
            case Ok(saved) => (saved, None)
  }

  /** The bill id of an entry the loop counts: not the "0" metadata entry, with a truthy bill_id. */
  function EntryBillId(e: Sync.MasterEntry): (r: Option<Value>)
    ensures r.Some? ==> Truthy(r.value)
  {
    if e.0 == "0" then None
    else
      var id := GetOr(e.1, "bill_id", PyNone);
      if Truthy(id) then Some(id) else None
  }

  /** One counted entry: found always, the new-bill step only for an id not stored yet. */
  function Visit(t: Tally, id: Value, src: Source): (r: Tally)
    ensures r.found == t.found + 1
    ensures r.added - t.added == r.sessionAdded - t.sessionAdded
    ensures t.added <= r.added <= t.added + 1
    ensures Str(id) in src.existing ==> r == t.(found := t.found + 1)
  {
    var t1 := t.(found := t.found + 1);
    if Str(id) in src.existing then t1
    else
      var (saved, err) := NewBillOutcome(id, src);
      var n := if saved then 1 else 0;
      t1.(added := t.added + n, sessionAdded := t.sessionAdded + n,
          errors := t.errors + (if err.Some? then [err.value] else []))
  }

  /** The loop of process_bills_for_session, from tally t over the remaining entries. */
  function SeedBills(t: Tally, entries: seq<Sync.MasterEntry>, maxBills: int, src: Source): Tally
    decreases |entries|
  {
    if entries == [] || CapReached(t.added, maxBills) then t
    else
      var next := match EntryBillId(entries[0]) case None => t case Some(id) => Visit(t, id, src);
      SeedBills(next, entries[1..], maxBills, src)
  }

  /** The entries the uncapped loop counts. */
  function CountBillEntries(entries: seq<Sync.MasterEntry>): (n: nat)
    ensures n <= |entries|
  {
    if entries == [] then 0
    else (if EntryBillId(entries[0]).Some? then 1 else 0) + CountBillEntries(entries[1..])
  }

  /** The cap holds: a run that starts within a positive cap ends within it. */
  lemma {:induction false} SeedBillsWithinCap(t: Tally, entries: seq<Sync.MasterEntry>, maxBills: int, src: Source)
    requires maxBills > 0 && t.added <= maxBills
    ensures SeedBills(t, entries, maxBills, src).added <= maxBills
    decreases |entries|
  {
    if entries != [] && !CapReached(t.added, maxBills) {
      var next := match EntryBillId(entries[0]) case None => t case Some(id) => Visit(t, id, src);
      SeedBillsWithinCap(next, entries[1..], maxBills, src);
    }
  }

  /**
   * With max_bills 0 every non-metadata entry with a bill_id is counted as
   * found, stored already or not, and no more bills are added than found.
   */
  lemma {:induction false} SeedBillsUncapped(t: Tally, entries: seq<Sync.MasterEntry>, src: Source)
    ensures SeedBills(t, entries, 0, src).found == t.found + CountBillEntries(entries)
    ensures SeedBills(t, entries, 0, src).added - t.added <= CountBillEntries(entries)
    decreases |entries|
  {
    if entries != [] {
      var next := match EntryBillId(entries[0]) case None => t case Some(id) => Visit(t, id, src);
      SeedBillsUncapped(next, entries[1..], src);
    }
  }

  /** The counters only grow, and both added counters move together. */
  lemma {:induction false} SeedBillsMonotone(t: Tally, entries: seq<Sync.MasterEntry>, maxBills: int, src: Source)
    ensures var r := SeedBills(t, entries, maxBills, src);
      t.added <= r.added && t.found <= r.found && r.added - t.added == r.sessionAdded - t.sessionAdded
      && r.added - t.added <= r.found - t.found
    decreases |entries|
  {
    if entries != [] && !CapReached(t.added, maxBills) {
      var next := match EntryBillId(entries[0]) case None => t case Some(id) => Visit(t, id, src);
      SeedBillsMonotone(next, entries[1..], maxBills, src);
    }
  }

  /** A run that starts at the cap touches nothing. */
  lemma {:induction false} AtCapNothingHappens(t: Tally, entries: seq<Sync.MasterEntry>, maxBills: int, src: Source)
    requires CapReached(t.added, maxBills)
    ensures SeedBills(t, entries, maxBills, src) == t
  {
  }

  /**
   * process_bills_for_session, with process_new_bill inlined.  Each message
   * logged goes to both the session's and the run's error list.
   */
  method ProcessBillsForSession(summary: SeedingSummary, session: SessionSummary,
                                masterList: seq<Sync.MasterEntry>, src: Source)
    modifies summary, session
    ensures var t := SeedBills(Tally(old(summary.billsAdded), old(session.billsFound), old(session.billsAdded), []),
                               masterList, summary.maxBills, src);
      summary.billsAdded == t.added && session.billsFound == t.found && session.billsAdded == t.sessionAdded
      && summary.errors == old(summary.errors) + t.errors && session.errors == old(session.errors) + t.errors
    ensures summary.billsAnalyzed == old(summary.billsAnalyzed) && summary.sessionsProcessed == old(summary.sessionsProcessed)
    ensures summary.endTime == old(summary.endTime) && session.billsAnalyzed == old(session.billsAnalyzed)
  {
    ghost var start := Tally(summary.billsAdded, session.billsFound, session.billsAdded, []);
    ghost var logged: seq<string> := [];
    var i := 0;
    while i < |masterList|
      invariant 0 <= i <= |masterList|
      invariant SeedBills(start, masterList, summary.maxBills, src)
             == SeedBills(Tally(summary.billsAdded, session.billsFound, session.billsAdded, logged),
                          masterList[i..], summary.maxBills, src)
      invariant summary.errors == old(summary.errors) + logged && session.errors == old(session.errors) + logged
      invariant summary.billsAnalyzed == old(summary.billsAnalyzed) && summary.sessionsProcessed == old(summary.sessionsProcessed)
      invariant summary.endTime == old(summary.endTime) && session.billsAnalyzed == old(session.billsAnalyzed)
    {
      if CapReached(summary.billsAdded, summary.maxBills) {
        return;
      }
      var entry := masterList[i];
      assert masterList[i..][1..] == masterList[i + 1..];
      ghost var t := Tally(summary.billsAdded, session.billsFound, session.billsAdded, logged);
      var id := EntryBillId(entry);
      if id.Some? {
        session.billsFound := session.billsFound + 1;
        if Str(id.value) !in src.existing {
          var (saved, err) := NewBillOutcome(id.value, src);
          if saved {
            summary.billsAdded := summary.billsAdded + 1;
            session.billsAdded := session.billsAdded + 1;
          }
          if err.Some? {
            session.errors := session.errors + [err.value];
            summary.errors := summary.errors + [err.value];
            logged := logged + [err.value];
          }
        }
        assert Tally(summary.billsAdded, session.billsFound, session.billsAdded, logged) == Visit(t, id.value, src);
      }
      i := i + 1;
    }
  }

  // ---------------------------------------------------------------------
  // process_session_for_seeding

  function MasterListFailure(sessionId: Value): string
  {
    "Failed to retrieve master list for session " + Str(sessionId)
  }

  function SessionError(sessionId: Value, e: Error): string
  {
    "Error processing session " + Str(sessionId) + ": " + Message(e)
  }

  /**
   * The sessions list after process_session_for_seeding as written: the
   * early return for an empty master list sits inside `try`, so the
   * `finally` appends the summary a second time.
   */
  function RecordedAsWritten(processed: seq<SessionSummary>, s: SessionSummary,
                             masterList: Result<seq<Sync.MasterEntry>, Error>): seq<SessionSummary>
  {
    if masterList == Ok([]) then processed + [s, s] else processed + [s]
  }

  /** The intended sessions list: every processed session listed once. */
  function Recorded(processed: seq<SessionSummary>, s: SessionSummary): seq<SessionSummary>
  {
    processed + [s]
  }

  /** A session whose master list comes back empty is listed twice. */
  lemma {:induction false} EmptyMasterListListedTwice(processed: seq<SessionSummary>, s: SessionSummary)
    requires s !in processed
    ensures multiset(RecordedAsWritten(processed, s, Ok([])))[s] == 2
    ensures |RecordedAsWritten(processed, s, Ok([]))| == |processed| + 2
  {
    assert multiset(processed)[s] == 0;
  }

  /** Listed once, whatever the master list. */
  lemma {:induction false} RecordedOnce(processed: seq<SessionSummary>, s: SessionSummary)
    requires s !in processed
    ensures multiset(Recorded(processed, s))[s] == 1
    ensures |Recorded(processed, s)| == |processed| + 1
  {
    assert multiset(processed)[s] == 0;
  }

  /**
   * process_session_for_seeding as written.  The master list is get_master_list's
   * answer (Err for an exception it raised; a falsy answer is the empty list).
   */
  method ProcessSessionForSeeding(summary: SeedingSummary, state: string, sessionId: Value, sessionName: Value,
                                  masterList: Result<seq<Sync.MasterEntry>, Error>, src: Source)
    returns (s: SessionSummary)
    modifies summary
    ensures fresh(s) && s.state == state && s.sessionId == sessionId && s.sessionName == sessionName
    ensures summary.sessionsProcessed == RecordedAsWritten(old(summary.sessionsProcessed), s, masterList)
    ensures masterList == Ok([]) ==>
      (s.errors == [MasterListFailure(sessionId)] && summary.errors == old(summary.errors)
       && summary.billsAdded == old(summary.billsAdded) && s.billsFound == 0)
    ensures masterList.Err? ==>
      (s.errors == [SessionError(sessionId, masterList.error)]
       && summary.errors == old(summary.errors) + [SessionError(sessionId, masterList.error)]
       && summary.billsAdded == old(summary.billsAdded) && s.billsFound == 0)
    ensures masterList.Ok? && masterList.value != [] ==>
      (var t := SeedBills(Tally(old(summary.billsAdded), 0, 0, []), masterList.value, summary.maxBills, src);
       summary.billsAdded == t.added && s.billsFound == t.found && s.billsAdded == t.sessionAdded
       && summary.errors == old(summary.errors) + t.errors && s.errors == t.errors)
    ensures summary.billsAnalyzed == old(summary.billsAnalyzed) && summary.endTime == old(summary.endTime)
    ensures s.billsAnalyzed == 0
  {
    s := new SessionSummary(state, sessionId, sessionName);
    match masterList {
      case Err(e) =>
        s.errors := s.errors + [SessionError(sessionId, e)];
        summary.errors := summary.errors + [SessionError(sessionId, e)];
      case Ok(entries) =>
        if entries == [] {
          s.errors := s.errors + [MasterListFailure(sessionId)];
          summary.sessionsProcessed := summary.sessionsProcessed + [s];
          // the `finally` clause runs on the way out of the `return`
          summary.sessionsProcessed := summary.sessionsProcessed + [s];
          return;
        }
        ProcessBillsForSession(summary, s, entries, src);
    }
    summary.sessionsProcessed := summary.sessionsProcessed + [s];
  }

  /** process_session_for_seeding with the summary listed once on every path. */
  method ProcessSessionOnce(summary: SeedingSummary, state: string, sessionId: Value, sessionName: Value,
                            masterList: Result<seq<Sync.MasterEntry>, Error>, src: Source)
    returns (s: SessionSummary)
    modifies summary
    ensures fresh(s) && s.state == state && s.sessionId == sessionId && s.sessionName == sessionName
    ensures summary.sessionsProcessed == Recorded(old(summary.sessionsProcessed), s)
    ensures masterList == Ok([]) ==>
      (s.errors == [MasterListFailure(sessionId)] && summary.errors == old(summary.errors)
       && summary.billsAdded == old(summary.billsAdded) && s.billsFound == 0)
    ensures masterList.Err? ==>
      (s.errors == [SessionError(sessionId, masterList.error)]
       && summary.errors == old(summary.errors) + [SessionError(sessionId, masterList.error)]
       && summary.billsAdded == old(summary.billsAdded) && s.billsFound == 0)
    ensures masterList.Ok? && masterList.value != [] ==>
      (var t := SeedBills(Tally(old(summary.billsAdded), 0, 0, []), masterList.value, summary.maxBills, src);
       summary.billsAdded == t.added && s.billsFound == t.found && s.billsAdded == t.sessionAdded
       && summary.errors == old(summary.errors) + t.errors && s.errors == t.errors)
    ensures summary.billsAnalyzed == old(summary.billsAnalyzed) && summary.endTime == old(summary.endTime)
    ensures s.billsAnalyzed == 0
  {
    s := new SessionSummary(state, sessionId, sessionName);
    match masterList {
      case Err(e) =>
        s.errors := s.errors + [SessionError(sessionId, e)];
        summary.errors := summary.errors + [SessionError(sessionId, e)];
      case Ok(entries) =>
        if entries == [] {
          s.errors := s.errors + [MasterListFailure(sessionId)];
        } else {
          ProcessBillsForSession(summary, s, entries, src);
        }
    }
    summary.sessionsProcessed := summary.sessionsProcessed + [s];
  }

  // ---------------------------------------------------------------------
  // process_jurisdiction_for_seeding

  /** The relevant sessions the loop hands on: those with a truthy session_id. */
  function CountWithId(sessions: seq<Sync.SessionInfo>): (n: nat)
    ensures n <= |sessions|
  {
    if sessions == [] then 0
    else (if Truthy(sessions[0].sessionId) then 1 else 0) + CountWithId(sessions[1..])
  }

  function NoSessions(state: string): string
  {
    "No sessions found for state " + state
  }

  /**
   * How many entries the loop appends to the sessions list: one per session
   * with a truthy session_id, and as written (fixed false) two for one whose
   * master list comes back empty.
   */
  function Listed(sessions: seq<Sync.SessionInfo>, masterLists: Value -> Result<seq<Sync.MasterEntry>, Error>, fixed: bool): (n: nat)
    ensures fixed ==> n == CountWithId(sessions)
    ensures n >= CountWithId(sessions)
  {
    if sessions == [] then 0
    else
      var id := sessions[0].sessionId;
      (if !Truthy(id) then 0 else if !fixed && masterLists(id) == Ok([]) then 2 else 1)
      + Listed(sessions[1..], masterLists, fixed)
  }

  /**
   * As written the sessions list grows by exactly one entry per session with
   * an id if and only if none of those sessions has an empty master list.
   */
  lemma {:induction false} ListedAsWrittenExact(sessions: seq<Sync.SessionInfo>, masterLists: Value -> Result<seq<Sync.MasterEntry>, Error>)
    ensures Listed(sessions, masterLists, false) == CountWithId(sessions)
        <==> forall i :: 0 <= i < |sessions| && Truthy(sessions[i].sessionId) ==> masterLists(sessions[i].sessionId) != Ok([])
    decreases |sessions|
  {
    if sessions != [] {
      ListedAsWrittenExact(sessions[1..], masterLists);
      assert forall i :: 1 <= i < |sessions| ==> sessions[i] == sessions[1..][i - 1];
      if Listed(sessions, masterLists, false) == CountWithId(sessions) {
        assert Listed(sessions[1..], masterLists, false) == CountWithId(sessions[1..]);
      }
    }
  }

  /** A session summary for this state carrying the id and the name of one of the sessions. */
  predicate NamesSession(s: SessionSummary, state: string, sessions: seq<Sync.SessionInfo>)
  {
    s.state == state && exists info :: info in sessions && s.sessionId == info.sessionId && s.sessionName == info.sessionName
  }

  /**
   * One pass of the session loop for a session with an id: the session is
   * processed under its own id and name, and every entry it adds to the
   * sessions list names it.
   */
  method SeedSession(summary: SeedingSummary, state: string, session: Sync.SessionInfo,
                     ml: Result<seq<Sync.MasterEntry>, Error>, src: Source, fixed: bool)
    modifies summary
    ensures |summary.sessionsProcessed|
         == |old(summary.sessionsProcessed)| + (if !fixed && ml == Ok([]) then 2 else 1)
    ensures old(summary.sessionsProcessed) <= summary.sessionsProcessed
    ensures forall k :: |old(summary.sessionsProcessed)| <= k < |summary.sessionsProcessed| ==>
      (var e := summary.sessionsProcessed[k];
       e.state == state && e.sessionId == session.sessionId && e.sessionName == session.sessionName)
    ensures old(summary.billsAdded) <= summary.billsAdded
    ensures summary.maxBills > 0 && old(summary.billsAdded) <= summary.maxBills ==> summary.billsAdded <= summary.maxBills
    ensures summary.billsAnalyzed == old(summary.billsAnalyzed) && summary.endTime == old(summary.endTime)
  {
    var before := summary.billsAdded;
    if fixed {
      var _ := ProcessSessionOnce(summary, state, session.sessionId, session.sessionName, ml, src);
    } else {
      var _ := ProcessSessionForSeeding(summary, state, session.sessionId, session.sessionName, ml, src);
    }
    if ml.Ok? && ml.value != [] {
      SeedBillsMonotone(Tally(before, 0, 0, []), ml.value, summary.maxBills, src);
      if summary.maxBills > 0 && before <= summary.maxBills {
        SeedBillsWithinCap(Tally(before, 0, 0, []), ml.value, summary.maxBills, src);
      }
    }
  }

  /**
   * process_jurisdiction_for_seeding over the session list and master lists
   * get_session_list and get_master_list return, each session processed by
   * process_session_for_seeding as written (fixed false) or listed once
   * (fixed true).  Each session's name is read from its own record; the
   * master lists come from the oracle.
   */
  method ProcessJurisdictionForSeeding(summary: SeedingSummary, state: string, sessions: seq<Sync.SessionInfo>,
                                       masterLists: Value -> Result<seq<Sync.MasterEntry>, Error>, src: Source, fixed: bool)
    modifies summary
    ensures sessions == [] ==>
      (summary.errors == old(summary.errors) + [NoSessions(state)]
       && summary.sessionsProcessed == old(summary.sessionsProcessed)
       && summary.billsAdded == old(summary.billsAdded))
    ensures |summary.sessionsProcessed|
         == |old(summary.sessionsProcessed)| + Listed(RelevantSessions(sessions, src.start.date.year), masterLists, fixed)
    ensures old(summary.sessionsProcessed) <= summary.sessionsProcessed
    ensures forall k :: |old(summary.sessionsProcessed)| <= k < |summary.sessionsProcessed| ==>
      NamesSession(summary.sessionsProcessed[k], state, RelevantSessions(sessions, src.start.date.year))
    ensures old(summary.billsAdded) <= summary.billsAdded
    ensures summary.maxBills > 0 && old(summary.billsAdded) <= summary.maxBills ==> summary.billsAdded <= summary.maxBills
    ensures summary.billsAnalyzed == old(summary.billsAnalyzed) && summary.endTime == old(summary.endTime)
  {
    if sessions == [] {
      summary.errors := summary.errors + [NoSessions(state)];
      return;
    }
    var relevant := RelevantSessions(sessions, src.start.date.year);
    var i := 0;
    while i < |relevant|
      invariant 0 <= i <= |relevant|
      invariant |summary.sessionsProcessed| + Listed(relevant[i..], masterLists, fixed)
             == |old(summary.sessionsProcessed)| + Listed(relevant, masterLists, fixed)
      invariant old(summary.sessionsProcessed) <= summary.sessionsProcessed
      invariant forall k :: |old(summary.sessionsProcessed)| <= k < |summary.sessionsProcessed| ==>
        NamesSession(summary.sessionsProcessed[k], state, relevant)
      invariant old(summary.billsAdded) <= summary.billsAdded
      invariant summary.maxBills > 0 && old(summary.billsAdded) <= summary.maxBills ==> summary.billsAdded <= summary.maxBills
      invariant summary.billsAnalyzed == old(summary.billsAnalyzed) && summary.endTime == old(summary.endTime)
    {
      var session := relevant[i];
      assert relevant[i..][1..] == relevant[i + 1..];
      if Truthy(session.sessionId) {
        SeedSession(summary, state, session, masterLists(session.sessionId), src, fixed);
        assert session in relevant;
      }
      i := i + 1;
    }
  }

  // ---------------------------------------------------------------------
  // update_session_analysis_count

  /**
   * The (state, session_id) pair a stored bill's raw_api_response names, if
   * both are truthy.  A string is decoded as JSON first (parse is the
   * oracle; None is a JSONDecodeError, which ends the update).
   */
  function SessionKey(raw: Value, parse: string -> Option<Value>): (r: Option<(Value, Value)>)
    ensures r.Some? ==> Truthy(r.value.0) && Truthy(r.value.1)
    ensures r.Some? ==> raw.PyDict? || raw.PyStr?
  {
    var data := if raw.PyStr? then parse(raw.s) else Some(raw);
    match data
    case None => None
    case Some(d) =>
      if !d.PyDict? then None
      else
        var state := GetOr(d.entries, "state", PyNone);
        var session := GetOr(d.entries, "session", PyNone);
        var sid := if session.PyDict? then GetOr(session.entries, "session_id", PyNone) else PyNone;
        if Truthy(state) && Truthy(sid) then Some((state, sid)) else None
  }

  /** Stored JSON text and the dict it decodes to name the same session. */
  lemma {:induction false} SessionKeyOfText(text: string, d: Value, parse: string -> Option<Value>)
    requires parse(text) == Some(d) && d.PyDict?
    ensures SessionKey(PyStr(text), parse) == SessionKey(d, parse)
  {
  }

  /** The source's match test: session_summary["state"] == bill_state and the session ids equal. */
  predicate Matches(s: SessionSummary, key: (Value, Value))
  {
    PyStr(s.state) == key.0 && s.sessionId == key.1
  }

  /** The position of the first summary that matches, or the list's length. */
  function FirstMatch(sessions: seq<SessionSummary>, key: (Value, Value)): (k: nat)
    ensures k <= |sessions|
    ensures k < |sessions| ==> Matches(sessions[k], key)
    ensures forall j :: 0 <= j < k ==> !Matches(sessions[j], key)
    decreases |sessions|
  {
    if sessions == [] then 0
    else if Matches(sessions[0], key) then 0
    else 1 + FirstMatch(sessions[1..], key)
  }

  /** Whether the bill stored under this raw response credits summary s. */
  predicate Credited(sessions: seq<SessionSummary>, raw: Option<Value>, parse: string -> Option<Value>,
                     s: SessionSummary)
  {
    raw.Some? && SessionKey(raw.value, parse).Some?
    && FirstMatch(sessions, SessionKey(raw.value, parse).value) < |sessions|
    && sessions[FirstMatch(sessions, SessionKey(raw.value, parse).value)] == s
  }

  /** At most one summary is credited, and only one that matches. */
  lemma {:induction false} CreditedIsFirstMatch(sessions: seq<SessionSummary>, raw: Option<Value>, parse: string -> Option<Value>,
                             s1: SessionSummary, s2: SessionSummary)
    requires Credited(sessions, raw, parse, s1) && Credited(sessions, raw, parse, s2)
    ensures s1 == s2
    ensures Matches(s1, SessionKey(raw.value, parse).value)
  {
  }

  /**
   * update_session_analysis_count for a bill whose stored raw_api_response is
   * raw (None when no bill has that id): only the first matching session
   * summary is incremented.
   */
  method UpdateSessionAnalysisCount(summary: SeedingSummary, raw: Option<Value>, parse: string -> Option<Value>)
    modifies summary.sessionsProcessed
    ensures forall s :: s in summary.sessionsProcessed ==>
      s.billsAnalyzed == old(s.billsAnalyzed) + (if Credited(summary.sessionsProcessed, raw, parse, s) then 1 else 0)
    ensures forall s :: s in summary.sessionsProcessed ==>
      s.billsFound == old(s.billsFound) && s.billsAdded == old(s.billsAdded) && s.errors == old(s.errors)
  {
    if raw.None? {
      return;
    }
    var key := SessionKey(raw.value, parse);
    if key.None? {
      return;
    }
    var sessions := summary.sessionsProcessed;
    var k := 0;
    while k < |sessions|
      invariant 0 <= k <= FirstMatch(sessions, key.value)
      invariant forall s :: s in sessions ==> s.billsAnalyzed == old(s.billsAnalyzed)
      invariant forall s :: s in sessions ==>
        s.billsFound == old(s.billsFound) && s.billsAdded == old(s.billsAdded) && s.errors == old(s.errors)
    {
      if Matches(sessions[k], key.value) {
        sessions[k].billsAnalyzed := sessions[k].billsAnalyzed + 1;
        return;
      }
      k := k + 1;
    }
  }

  // ---------------------------------------------------------------------
  // analyze_new_bills

  /** isinstance(e, APIError) or "openai" in str(e).lower(). */
  predicate ApiLike(e: Error)
  {
    IsAPIError(e) || Text.Contains(Text.Lower(Message(e)), "openai")
  }

  /** The errors that end the bulk analysis: quota or billing for API errors, database or sql otherwise. */
  predicate Stops(e: Error)
  {
    var low := Text.Lower(Message(e));
    if ApiLike(e) then Text.Contains(low, "quota") || Text.Contains(low, "billing")
    else Text.Contains(low, "database") || Text.Contains(low, "sql")
  }

  const QuotaStop := "OpenAI API quota exceeded or billing issue. Stopping analysis."

  /** The messages logged for a failed analysis of bill id. */
  function FailureMessages(id: int, e: Error): (r: seq<string>)
    ensures |r| == (if Stops(e) then 2 else 1)
  {
    var idText := Text.IntToString(id);
    if ApiLike(e) then
      ["OpenAI API error analyzing legislation " + idText + ": " + Message(e)]
      + (if Stops(e) then [QuotaStop] else [])
    else
      ["Error analyzing legislation " + idText + ": " + Message(e)]
      + (if Stops(e) then ["Database error analyzing legislation " + idText + ". Stopping analysis."] else [])
  }

  /** The bills analysed so far and the messages logged so far. */
  datatype Run = Run(analysed: seq<int>, errors: seq<string>)

  /** Whether analysing id raises an error that ends the loop. */
  predicate Halts(analyze: int -> Option<Error>, id: int)
  {
    analyze(id).Some? && Stops(analyze(id).value)
  }

  /** The run after one id: analysed on success, its messages logged on failure. */
  function Advance(acc: Run, id: int, analyze: int -> Option<Error>): (r: Run)
    ensures r.analysed == acc.analysed + (if analyze(id).None? then [id] else [])
  {
    match analyze(id)
    case None => Run(acc.analysed + [id], acc.errors)
    case Some(e) => Run(acc.analysed, acc.errors + FailureMessages(id, e))
  }

  /** The loop of analyze_new_bills from run acc over the remaining ids (analyze gives the error raised, if any). */
  function AnalyzeFrom(acc: Run, ids: seq<int>, analyze: int -> Option<Error>): Run
    decreases |ids|
  {
    if ids == [] then acc
    else if Halts(analyze, ids[0]) then Advance(acc, ids[0], analyze)
    else AnalyzeFrom(Advance(acc, ids[0], analyze), ids[1..], analyze)
  }

  /** The position of the first id whose analysis raises a stopping error, or the length. */
  function FirstStop(ids: seq<int>, analyze: int -> Option<Error>): (k: nat)
    ensures k <= |ids|
    ensures k < |ids| ==> Halts(analyze, ids[k])
    ensures forall j :: 0 <= j < k ==> !Halts(analyze, ids[j])
    decreases |ids|
  {
    if ids == [] then 0
    else if Halts(analyze, ids[0]) then 0
    else 1 + FirstStop(ids[1..], analyze)
  }

  /** The ids whose analysis succeeds, in order. */
  function Successes(ids: seq<int>, analyze: int -> Option<Error>): (r: seq<int>)
    ensures |r| <= |ids|
    ensures forall i :: 0 <= i < |r| ==> analyze(r[i]).None?
    decreases |ids|
  {
    if ids == [] then []
    else (if analyze(ids[0]).None? then [ids[0]] else []) + Successes(ids[1..], analyze)
  }

  /**
   * The stop rule: exactly the successes before the first stopping error are
   * analysed, in order; nothing after it is tried.
   */
  lemma {:induction false} AnalyzedUpToStop(acc: Run, ids: seq<int>, analyze: int -> Option<Error>)
    ensures AnalyzeFrom(acc, ids, analyze).analysed
         == acc.analysed + Successes(ids[..FirstStop(ids, analyze)], analyze)
    decreases |ids|
  {
    var k := FirstStop(ids, analyze);
    if ids == [] {
      assert ids[..k] == [];
    } else if Halts(analyze, ids[0]) {
      assert ids[..k] == [];
    } else {
      var k' := FirstStop(ids[1..], analyze);
      var pre := ids[..k];
      assert pre[0] == ids[0] && pre[1..] == ids[1..][..k'];
      var x := if analyze(ids[0]).None? then [ids[0]] else [];
      assert Successes(pre, analyze) == x + Successes(ids[1..][..k'], analyze);
      var acc' := Advance(acc, ids[0], analyze);
      AnalyzedUpToStop(acc', ids[1..], analyze);
    }
  }

  /** With no stopping error every successful id is analysed. */
  lemma {:induction false} AllSuccessesWithoutStop(ids: seq<int>, analyze: int -> Option<Error>)
    requires forall j :: 0 <= j < |ids| ==> !Halts(analyze, ids[j])
    ensures AnalyzeFrom(Run([], []), ids, analyze).analysed == Successes(ids, analyze)
  {
    assert FirstStop(ids, analyze) == |ids| by {
      if FirstStop(ids, analyze) < |ids| {
        assert false;
      }
    }
    AnalyzedUpToStop(Run([], []), ids, analyze);
    assert ids[..|ids|] == ids;
  }

  /** A stopping error logs its message and the stop notice last. */
  lemma {:induction false} StopLogsLast(acc: Run, id: int, rest: seq<int>, analyze: int -> Option<Error>)
    requires Halts(analyze, id)
    ensures AnalyzeFrom(acc, [id] + rest, analyze).errors == acc.errors + FailureMessages(id, analyze(id).value)
  {
  }

  /** How many of the analysed ids credit session summary s. */
  function Credit(sessions: seq<SessionSummary>, analysed: seq<int>, rawOf: int -> Option<Value>,
                  parse: string -> Option<Value>, s: SessionSummary): (n: nat)
    ensures n <= |analysed|
    decreases |analysed|
  {
    if analysed == [] then 0
    else
      Credit(sessions, analysed[..|analysed| - 1], rawOf, parse, s)
      + (if Credited(sessions, rawOf(analysed[|analysed| - 1]), parse, s) then 1 else 0)
  }

  /** Crediting one more analysed id adds its credit to every summary. */
  lemma {:induction false} CreditAppend(sessions: seq<SessionSummary>, analysed: seq<int>, id: int, rawOf: int -> Option<Value>,
                     parse: string -> Option<Value>)
    ensures forall s ::
      (Credit(sessions, analysed + [id], rawOf, parse, s)
       == Credit(sessions, analysed, rawOf, parse, s) + (if Credited(sessions, rawOf(id), parse, s) then 1 else 0))
  {
    assert (analysed + [id])[..|analysed|] == analysed;
  }

  function InitFailure(e: Error): string
  {
    "Failed to initialize AIAnalysis: " + Message(e)
  }

  /**
   * analyze_new_bills over the ids the database has no analysis for.
   * initError is the exception AIAnalysis() raised, analyze the one
   * analyze_legislation raises for an id, and rawOf the stored
   * raw_api_response of a bill.
   */
  method AnalyzeNewBills(summary: SeedingSummary, ids: seq<int>, initError: Option<Error>,
                         analyze: int -> Option<Error>, rawOf: int -> Option<Value>, parse: string -> Option<Value>)
    modifies summary, summary.sessionsProcessed
    ensures summary.sessionsProcessed == old(summary.sessionsProcessed)
    ensures summary.billsAdded == old(summary.billsAdded) && summary.endTime == old(summary.endTime)
    ensures old(summary.billsAdded) == 0 ==>
      (summary.billsAnalyzed == old(summary.billsAnalyzed) && summary.errors == old(summary.errors))
    ensures old(summary.billsAdded) != 0 && initError.Some? ==>
      (summary.billsAnalyzed == old(summary.billsAnalyzed)
       && summary.errors == old(summary.errors) + [InitFailure(initError.value)])
    ensures old(summary.billsAdded) != 0 && initError.None? ==>
      (var run := AnalyzeFrom(Run([], []), ids, analyze);
       summary.billsAnalyzed == old(summary.billsAnalyzed) + |run.analysed|
       && summary.errors == old(summary.errors) + run.errors
       && forall s :: s in summary.sessionsProcessed ==>
            s.billsAnalyzed == old(s.billsAnalyzed) + Credit(summary.sessionsProcessed, run.analysed, rawOf, parse, s))
    ensures old(summary.billsAdded) == 0 || initError.Some? ==>
      forall s :: s in summary.sessionsProcessed ==> s.billsAnalyzed == old(s.billsAnalyzed)
    ensures forall s :: s in summary.sessionsProcessed ==>
      s.billsFound == old(s.billsFound) && s.billsAdded == old(s.billsAdded) && s.errors == old(s.errors)
  {
    if summary.billsAdded == 0 {
      return;
    }
    if initError.Some? {
      summary.errors := summary.errors + [InitFailure(initError.value)];
      return;
    }
    AnalyzeEach(summary, ids, analyze, rawOf, parse);
  }

  /** The loop of analyze_new_bills over the ids, once the analyser exists. */
  method AnalyzeEach(summary: SeedingSummary, ids: seq<int>,
                     analyze: int -> Option<Error>, rawOf: int -> Option<Value>, parse: string -> Option<Value>)
    modifies summary, summary.sessionsProcessed
    ensures summary.sessionsProcessed == old(summary.sessionsProcessed)
    ensures summary.billsAdded == old(summary.billsAdded) && summary.endTime == old(summary.endTime)
    ensures var run := AnalyzeFrom(Run([], []), ids, analyze);
      summary.billsAnalyzed == old(summary.billsAnalyzed) + |run.analysed|
      && summary.errors == old(summary.errors) + run.errors
      && forall s :: s in summary.sessionsProcessed ==>
           s.billsAnalyzed == old(s.billsAnalyzed) + Credit(summary.sessionsProcessed, run.analysed, rawOf, parse, s)
    ensures forall s :: s in summary.sessionsProcessed ==>
      s.billsFound == old(s.billsFound) && s.billsAdded == old(s.billsAdded) && s.errors == old(s.errors)
  {
    ghost var acc := Run([], []);
    var i := 0;
    while i < |ids|
      invariant 0 <= i <= |ids|
      invariant AnalyzeFrom(Run([], []), ids, analyze) == AnalyzeFrom(acc, ids[i..], analyze)
      invariant summary.billsAnalyzed == old(summary.billsAnalyzed) + |acc.analysed|
      invariant summary.errors == old(summary.errors) + acc.errors
      invariant summary.sessionsProcessed == old(summary.sessionsProcessed)
      invariant summary.billsAdded == old(summary.billsAdded) && summary.endTime == old(summary.endTime)
      invariant forall s :: s in summary.sessionsProcessed ==>
        s.billsAnalyzed == old(s.billsAnalyzed) + Credit(summary.sessionsProcessed, acc.analysed, rawOf, parse, s)
      invariant forall s :: s in summary.sessionsProcessed ==>
        s.billsFound == old(s.billsFound) && s.billsAdded == old(s.billsAdded) && s.errors == old(s.errors)
    {
      var id := ids[i];
      assert ids[i..][1..] == ids[i + 1..];
      var outcome := analyze(id);
      ghost var acc0 := acc;
      acc := Advance(acc, id, analyze);
      if outcome.None? {
        summary.billsAnalyzed := summary.billsAnalyzed + 1;
        CreditAppend(summary.sessionsProcessed, acc0.analysed, id, rawOf, parse);
        UpdateSessionAnalysisCount(summary, rawOf(id), parse);
      } else {
        var messages := FailureMessages(id, outcome.value);
        summary.errors := summary.errors + messages;
        if Stops(outcome.value) {
          assert Halts(analyze, id);
          return;
        }
      }
      i := i + 1;
    }
  }
}
