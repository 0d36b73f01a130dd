/**
 * The analytics store's parameter validators and its recent-activity
 * listing (app/data/analytics_store.py): two query results are merged,
 * sorted newest first by date text, and cut to an offset/limit window;
 * any database failure answers with a fixed mock list under the same
 * window.
 */
module AnalyticsStore {
  import opened Wrappers
  import opened PyValue
  import Text
  import BaseStore

  type StoreError = BaseStore.StoreError

  // ---------------------------------------------------------------------
  // Validators

  const ImpactTypes: seq<string> := ["public_health", "financial", "operational", "regulatory", "all"]
  const TimePeriods: seq<string> := ["current", "past_year", "past_month", "all"]

  /** How the two choice lists print in the error messages. */
  const ImpactTypesRepr := "['public_health', 'financial', 'operational', 'regulatory', 'all']"
  const TimePeriodsRepr := "['current', 'past_year', 'past_month', 'all']"

  /** `value not in choices` on a list of strings: only an equal str is a member. */
  predicate InChoices(v: Value, choices: seq<string>)
  {
    v.PyStr? && v.s in choices
  }

  /** _validate_impact_type. */
  function ValidateImpactType(t: Value): (r: Result<(), StoreError>)
    ensures r.Ok? <==> InChoices(t, ImpactTypes)
    ensures r.Err? ==> r.error == BaseStore.ValidationError(
      "Invalid impact_type: " + Str(t) + ". Must be one of " + ImpactTypesRepr)
  {
    if InChoices(t, ImpactTypes) then Ok(())
    else Err(BaseStore.ValidationError("Invalid impact_type: " + Str(t) + ". Must be one of " + ImpactTypesRepr))
  }

  /** _validate_time_period. */
  function ValidateTimePeriod(p: Value): (r: Result<(), StoreError>)
    ensures r.Ok? <==> InChoices(p, TimePeriods)
    ensures r.Err? ==> r.error == BaseStore.ValidationError(
      "Invalid time_period: " + Str(p) + ". Must be one of " + TimePeriodsRepr)
  {
    if InChoices(p, TimePeriods) then Ok(())
    else Err(BaseStore.ValidationError("Invalid time_period: " + Str(p) + ". Must be one of " + TimePeriodsRepr))
  }

  /** _validate_positive_integer (a bool is an int to isinstance). */
  function ValidatePositiveInteger(v: Value, name: string): (r: Result<int, StoreError>)
    ensures r.Ok? <==> BaseStore.AsInt(v).Some? && BaseStore.AsInt(v).value > 0
    ensures r.Ok? ==> r.value == BaseStore.AsInt(v).value
    ensures r.Err? ==> r.error == BaseStore.ValidationError(name + " must be a positive integer, got " + Str(v))
  {
    if BaseStore.AsInt(v).None? || BaseStore.AsInt(v).value <= 0 then
      Err(BaseStore.ValidationError(name + " must be a positive integer, got " + Str(v)))
    else Ok(BaseStore.AsInt(v).value)
  }

  /** _validate_non_negative_integer. */
  function ValidateNonNegativeInteger(v: Value, name: string): (r: Result<int, StoreError>)
    ensures r.Ok? <==> BaseStore.AsInt(v).Some? && BaseStore.AsInt(v).value >= 0
    ensures r.Ok? ==> r.value == BaseStore.AsInt(v).value
    ensures r.Err? ==> r.error == BaseStore.ValidationError(name + " must be a non-negative integer, got " + Str(v))
  {
    if BaseStore.AsInt(v).None? || BaseStore.AsInt(v).value < 0 then
      Err(BaseStore.ValidationError(name + " must be a non-negative integer, got " + Str(v)))
    else Ok(BaseStore.AsInt(v).value)
  }

  datatype ActivityParams = ActivityParams(days: int, limit: int, offset: int)

  /** The validate_inputs guard of get_recent_activity: days, then limit, then offset. */
  function ValidateActivityParams(days: Value, limit: Value, offset: Value): (r: Result<ActivityParams, StoreError>)
    ensures r.Ok? ==> r.value.days > 0 && r.value.limit > 0 && r.value.offset >= 0
    ensures r.Ok? <==>
      ValidatePositiveInteger(days, "days").Ok? && ValidatePositiveInteger(limit, "limit").Ok?
      && ValidateNonNegativeInteger(offset, "offset").Ok?
  {
    match ValidatePositiveInteger(days, "days")
    case Err(e) => Err(e)
    case Ok(d) =>
      match ValidatePositiveInteger(limit, "limit")
      case Err(e) => Err(e)
      case Ok(l) =>
        match ValidateNonNegativeInteger(offset, "offset")
        case Err(e) => Err(e)
        case Ok(o) => Ok(ActivityParams(d, l, o))
  }

  // ---------------------------------------------------------------------
  // Activity items and their order

  datatype ActivityType = New | Updated

  /** One item of the activity list; dates are isoformat text or absent. */
  datatype Activity = Activity(
    id: int, billNumber: string, title: string, state: string,
    introducedDate: Option<string>, updatedAt: Option<string>,
    activityType: ActivityType, description: Option<string>)

  /** get_date_for_sorting: a non-empty introduced date, else a non-empty update date, else "". */
  function SortKey(a: Activity): (k: string)
    ensures a.introducedDate.Some? && a.introducedDate.value != "" ==> k == a.introducedDate.value
    ensures (a.introducedDate.None? || a.introducedDate.value == "") && a.updatedAt.Some? ==> k == a.updatedAt.value
  {
    if a.introducedDate.Some? && a.introducedDate.value != "" then a.introducedDate.value
    else if a.updatedAt.Some? then a.updatedAt.value
    else ""
  }

  /** Newest first: no key is below the key after it. */
  predicate Descending(s: seq<Activity>)
  {
    forall i :: 0 <= i < |s| - 1 ==> !Text.StrLess(SortKey(s[i]), SortKey(s[i + 1]))
  }

  /** The items whose sort key is k, in order. */
  function WithKey(s: seq<Activity>, k: string): seq<Activity>
  {
    if s == [] then []
    else (if SortKey(s[0]) == k then [s[0]] else []) + WithKey(s[1..], k)
  }

  /**
   * Puts a before the first item whose key is not above a's: among equal
   * keys a goes first, so an earlier item stays earlier.
   */
  function InsertDesc(a: Activity, s: seq<Activity>): (r: seq<Activity>)
    ensures |r| == |s| + 1 && multiset(r) == multiset(s) + multiset{a}
    ensures r[0] == a || (s != [] && r[0] == s[0])
  {
    if s == [] then [a]
    else if Text.StrLess(SortKey(a), SortKey(s[0])) then
      assert s == [s[0]] + s[1..];
      [s[0]] + InsertDesc(a, s[1..])
    else [a] + s
  }

  /** list.sort(key=get_date_for_sorting, reverse=True): stable, newest first. */
  function SortActivity(s: seq<Activity>): (r: seq<Activity>)
    ensures multiset(r) == multiset(s)
  {
    if s == [] then []
    else
      assert s == [s[0]] + s[1..];
      InsertDesc(s[0], SortActivity(s[1..]))
  }

  lemma {:induction false} InsertDescKeepsOrder(a: Activity, s: seq<Activity>)
    requires Descending(s)
    ensures Descending(InsertDesc(a, s))
    decreases |s|
  {
    if s != [] && Text.StrLess(SortKey(a), SortKey(s[0])) {
      InsertDescKeepsOrder(a, s[1..]);
      var r := InsertDesc(a, s);
      assert r == [s[0]] + InsertDesc(a, s[1..]);
      if |s| > 1 {
        assert !Text.StrLess(SortKey(s[0]), SortKey(s[1]));
      }
      Text.StrLessAsymmetric(SortKey(a), SortKey(s[0]));
    }
  }

  lemma {:induction false} WithKeyCons(x: Activity, s: seq<Activity>, k: string)
    ensures WithKey([x] + s, k) == (if SortKey(x) == k then [x] else []) + WithKey(s, k)
  {
    assert ([x] + s)[1..] == s;
  }

  lemma {:induction false} SwapAroundEmpty(p: seq<Activity>, q: seq<Activity>, w: seq<Activity>)
    requires p == [] || q == []
    ensures p + (q + w) == q + (p + w)
  {
    if p == [] {
      assert p + (q + w) == q + w == q + (p + w);
    } else {
      assert q + (p + w) == p + w == p + (q + w);
    }
  }

  lemma {:induction false} InsertDescStable(a: Activity, s: seq<Activity>, k: string)
    ensures WithKey(InsertDesc(a, s), k) == (if SortKey(a) == k then [a] else []) + WithKey(s, k)
    decreases |s|
  {
    if s == [] {
      WithKeyCons(a, [], k);
    } else if Text.StrLess(SortKey(a), SortKey(s[0])) {
      var x, t := s[0], s[1..];
      var ka := if SortKey(a) == k then [a] else [];
      var kx := if SortKey(x) == k then [x] else [];
      InsertDescStable(a, t, k);
      WithKeyCons(x, InsertDesc(a, t), k);
      WithKeyCons(x, t, k);
      assert s == [x] + t;
      if SortKey(a) == k {
        Text.StrLessIrreflexive(k);
        assert kx == [];
      }
      SwapAroundEmpty(kx, ka, WithKey(t, k));
      assert InsertDesc(a, s) == [x] + InsertDesc(a, t);
    } else {
      WithKeyCons(a, s, k);
    }
  }

  /** The sorted list is in descending key order. */
  lemma {:induction false} SortedDescending(s: seq<Activity>)
    ensures Descending(SortActivity(s))
    decreases |s|
  {
    if s != [] {
      SortedDescending(s[1..]);
      InsertDescKeepsOrder(s[0], SortActivity(s[1..]));
    }
  }

  /** Items with the same key keep their relative order: the sort is stable. */
  lemma {:induction false} SortedStable(s: seq<Activity>, k: string)
    ensures WithKey(SortActivity(s), k) == WithKey(s, k)
    decreases |s|
  {
    if s != [] {
      SortedStable(s[1..], k);
      InsertDescStable(s[0], SortActivity(s[1..]), k);
    }
  }

  /** Descending by adjacent pairs means descending between any two positions. */
  lemma {:induction false} DescendingPairwise(s: seq<Activity>, i: int, j: int)
    requires Descending(s) && 0 <= i <= j < |s|
    ensures !Text.StrLess(SortKey(s[i]), SortKey(s[j]))
    decreases j - i
  {
    if i == j {
      Text.StrLessIrreflexive(SortKey(s[i]));
    } else {
      DescendingPairwise(s, i + 1, j);
      Text.StrAtMostTransitive(SortKey(s[j]), SortKey(s[i + 1]), SortKey(s[i]));
    }
  }

  // ---------------------------------------------------------------------
  // The offset/limit window

  /** Python's normalisation of one slice bound against a length n. */
  function SliceBound(i: int, n: nat): (b: nat)
    ensures b <= n
  {
    if i < 0 then (if i + n < 0 then 0 else i + n) else if i > n then n else i
  }

  /** s[i:j] in Python: negative bounds count from the end, and a crossed pair is empty. */
  function PySlice<T>(s: seq<T>, i: int, j: int): (r: seq<T>)
    ensures |r| <= |s|
  {
    var lo, hi := SliceBound(i, |s|), SliceBound(j, |s|);
    if hi <= lo then [] else s[lo..hi]
  }

  /** safe_offset = min(offset, total) if offset >= 0 else 0; end = min(safe_offset + limit, total). */
  function Window<T>(s: seq<T>, offset: int, limit: int): seq<T>
  {
    var safe := if offset >= 0 then (if offset < |s| then offset else |s|) else 0;
    var end := if safe + limit < |s| then safe + limit else |s|;
    PySlice(s, safe, end)
  }

  /** The window holds at most limit items, and they are the ones from offset on. */
  lemma {:induction false} WindowContents<T>(s: seq<T>, offset: int, limit: int)
    requires offset >= 0 && limit >= 0
    ensures |Window(s, offset, limit)| <= limit
    ensures |Window(s, offset, limit)| == if offset >= |s| then 0 else (if |s| - offset < limit then |s| - offset else limit)
    ensures forall i :: 0 <= i < |Window(s, offset, limit)| ==> Window(s, offset, limit)[i] == s[offset + i]
  {
  }

  /** A negative limit reaches back from the end of the list, as Python's slice does. */
  lemma {:induction false} NegativeLimitCountsFromEnd()
    ensures Window([1, 2, 3, 4], 0, -1) == [1, 2, 3]
  {
    assert PySlice([1, 2, 3, 4], 0, -1) == [1, 2, 3, 4][0..3];
  }

  // ---------------------------------------------------------------------
  // get_recent_activity

  datatype Stats = Stats(totalNew: int, totalUpdated: int, byState: map<string, int>)

  datatype RecentActivity = RecentActivity(days: int, totalItems: int, items: seq<Activity>, stats: Stats)

  /** A row of the "new legislation" query. */
  datatype NewRow = NewRow(id: int, billNumber: string, title: string, state: string, introducedDate: Option<string>)

  /** A row of the "updated legislation" query. */
  datatype UpdatedRow = UpdatedRow(id: int, billNumber: string, title: string, state: string, updatedAt: Option<string>)

  function NewActivities(rows: seq<NewRow>): (r: seq<Activity>)
    ensures |r| == |rows|
    ensures forall i :: 0 <= i < |r| ==> r[i].activityType == New && r[i].id == rows[i].id
                                         && r[i].introducedDate == rows[i].introducedDate && r[i].updatedAt.None?
  {
    if rows == [] then []
    else
      var w := rows[0];
      [Activity(w.id, w.billNumber, w.title, w.state, w.introducedDate, None, New, None)] + NewActivities(rows[1..])
  }

  function UpdatedActivities(rows: seq<UpdatedRow>): (r: seq<Activity>)
    ensures |r| == |rows|
    ensures forall i :: 0 <= i < |r| ==> r[i].activityType == Updated && r[i].id == rows[i].id
                                         && r[i].updatedAt == rows[i].updatedAt && r[i].introducedDate.None?
  {
    if rows == [] then []
    else
      var w := rows[0];
      [Activity(w.id, w.billNumber, w.title, w.state, None, w.updatedAt, Updated, None)] + UpdatedActivities(rows[1..])
  }

  /** by_state[row.state] = row.count over the rows: a later row for a state wins. */
  function ByState(rows: seq<(string, int)>): (m: map<string, int>)
    ensures forall st :: st in m <==> exists k :: 0 <= k < |rows| && rows[k].0 == st
    ensures rows != [] ==> m[rows[|rows| - 1].0] == rows[|rows| - 1].1
  {
    if rows == [] then map[]
    else
      var init := rows[..|rows| - 1];
      assert forall k :: 0 <= k < |init| ==> init[k] == rows[k];
      ByState(init)[rows[|rows| - 1].0 := rows[|rows| - 1].1]
  }

  /**
   * What the database answered, when it did: both row lists, the two
   * counts (`scalar() or 0`) and the per-state rows, None when that one
   * query failed (which gives an empty map, not the mock).
   */
  datatype DbAnswer = DbAnswer(
    newRows: seq<NewRow>, updatedRows: seq<UpdatedRow>,
    newCount: Option<int>, updatedCount: Option<int>,
    stateRows: Option<seq<(string, int)>>)

  /** The three fixed mock items; ago(d) is the isoformat of utcnow() - d days. */
  function MockItems(ago: int -> string): (r: seq<Activity>)
    ensures |r| == 3
  {
    [Activity(1, "HB 123", "Healthcare Reform Act", "TX", Some(ago(5)), None, New, Some("A bill to reform healthcare services")),
     Activity(2, "SB 456", "Education Funding Bill", "CA", None, Some(ago(3)), Updated, Some("A bill to increase education funding")),
     Activity(3, "HB 789", "Environmental Protection Act", "NY", Some(ago(1)), None, New, Some("A bill to enhance environmental protections"))]
  }

  /** _get_mock_recent_activity: the same window over the unsorted mock list. */
  function MockRecentActivity(days: int, limit: int, offset: int, ago: int -> string): (r: RecentActivity)
    ensures r.days == days && r.totalItems == 3
    ensures r.stats == Stats(2, 1, map["TX" := 1, "CA" := 1, "NY" := 1])
  {
    RecentActivity(days, 3, Window(MockItems(ago), offset, limit), Stats(2, 1, map["TX" := 1, "CA" := 1, "NY" := 1]))
  }

  /**
   * get_recent_activity after validation: a missing session or a failed
   * query (db == None) gives the mock; otherwise the two row lists are
   * merged, sorted and windowed.
   */
  function GetRecentActivity(days: Value, limit: Value, offset: Value, db: Option<DbAnswer>, ago: int -> string)
    : (r: Result<RecentActivity, StoreError>)
    ensures r.Ok? <==> ValidateActivityParams(days, limit, offset).Ok?
    ensures r.Ok? ==> |r.value.items| <= ValidateActivityParams(days, limit, offset).value.limit
  {
    match ValidateActivityParams(days, limit, offset)
    case Err(e) => Err(e)
    case Ok(p) =>
      WindowContents(MockItems(ago), p.offset, p.limit);
      if db.None? then Ok(MockRecentActivity(p.days, p.limit, p.offset, ago))
      else
        var a := db.value;
        var all := SortActivity(NewActivities(a.newRows) + UpdatedActivities(a.updatedRows));
        WindowContents(all, p.offset, p.limit);
        var stats := Stats(a.newCount.GetOr(0), a.updatedCount.GetOr(0),
                           if a.stateRows.Some? then ByState(a.stateRows.value) else map[]);
        Ok(RecentActivity(p.days, |all|, Window(all, p.offset, p.limit), stats))
  }

  /** The window is a piece of the list, so it holds nothing the list does not. */
  lemma {:induction false} WindowWithin<T>(s: seq<T>, offset: int, limit: int)
    requires offset >= 0 && limit >= 0
    ensures multiset(Window(s, offset, limit)) <= multiset(s)
  {
    var w := Window(s, offset, limit);
    WindowContents(s, offset, limit);
    if |w| > 0 {
      assert w == s[offset..offset + |w|];
      assert s == s[..offset] + w + s[offset + |w|..];
    }
  }

  /** A piece of a descending list is descending. */
  lemma {:induction false} WindowDescending(s: seq<Activity>, offset: int, limit: int)
    requires offset >= 0 && limit >= 0 && Descending(s)
    ensures Descending(Window(s, offset, limit))
  {
    WindowContents(s, offset, limit);
    var w := Window(s, offset, limit);
    forall i | 0 <= i < |w| - 1 ensures !Text.StrLess(SortKey(w[i]), SortKey(w[i + 1])) {
      assert w[i] == s[offset + i] && w[i + 1] == s[offset + i + 1];
    }
  }

  /**
   * With an answer from the database, the page is newest first, it counts
   * every row of both queries, and it is a window of a stable sort of them.
   */
  lemma {:induction false} RecentActivityFromDb(days: Value, limit: Value, offset: Value, a: DbAnswer, ago: int -> string)
    requires ValidateActivityParams(days, limit, offset).Ok?
    ensures var r := GetRecentActivity(days, limit, offset, Some(a), ago).value;
      var all := NewActivities(a.newRows) + UpdatedActivities(a.updatedRows);
      && r.totalItems == |a.newRows| + |a.updatedRows|
      && r.items == Window(SortActivity(all), ValidateActivityParams(days, limit, offset).value.offset,
                           ValidateActivityParams(days, limit, offset).value.limit)
      && Descending(r.items)
      && multiset(r.items) <= multiset(all)
  {
    var p := ValidateActivityParams(days, limit, offset).value;
    var all := NewActivities(a.newRows) + UpdatedActivities(a.updatedRows);
    var sorted := SortActivity(all);
    SortedDescending(all);
    WindowDescending(sorted, p.offset, p.limit);
    WindowWithin(sorted, p.offset, p.limit);
  }

  /** Without the database, the answer is the mock list under the requested window. */
  lemma {:induction false} RecentActivityFallback(days: Value, limit: Value, offset: Value, ago: int -> string)
    requires ValidateActivityParams(days, limit, offset).Ok?
    ensures var p := ValidateActivityParams(days, limit, offset).value;
      GetRecentActivity(days, limit, offset, None, ago) == Ok(MockRecentActivity(p.days, p.limit, p.offset, ago))
    ensures ValidateActivityParams(days, limit, offset).value.offset >= 3 ==>
      GetRecentActivity(days, limit, offset, None, ago).value.items == []
  {
  }
}
