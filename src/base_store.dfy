/**
 * The shared part of the data stores (app/data/base_store.py): the
 * argument validators, the '%Y-%m-%d' date check, and the connection
 * life cycle of a store (retrying setup, close).
 */
module BaseStore {
  import opened Wrappers
  import opened PyValue
  import Text

  /** The exceptions of app/data/errors.py, plus whatever else escapes a store call. */
  datatype StoreError =
    | ValidationError(msg: string)
    | ConnectionError(msg: string)
    | DatabaseOperationError(msg: string)
    | Unhandled(kind: string, msg: string)

  /** isinstance(v, int) and its value; bool is a subclass of int. */
  function AsInt(v: Value): (r: Option<int>)
    ensures r.Some? <==> v.PyInt? || v.PyBool?
  {
    match v
    case PyInt(i) => Some(i)
    case PyBool(b) => Some(if b then 1 else 0)
    case _ => None
  }

  // ---------------------------------------------------------------------
  // Validators

  /** The max_retries check of BaseStore.__init__. */
  function ValidateMaxRetries(v: Value): (r: Result<int, StoreError>)
    ensures r.Ok? <==> AsInt(v).Some? && AsInt(v).value >= 1
    ensures r.Ok? ==> r.value == AsInt(v).value
    ensures r.Err? ==> r.error == ValidationError("max_retries must be a positive integer")
  {
    match AsInt(v)
    case Some(n) => if n < 1 then Err(ValidationError("max_retries must be a positive integer")) else Ok(n)
    case None => Err(ValidationError("max_retries must be a positive integer"))
  }

  const MaxPageLimit: int := 1000

  /** _validate_pagination_params: the limit is checked before the offset, the cap last. */
  function ValidatePaginationParams(limit: Value, offset: Value): (r: Result<(), StoreError>)
    ensures r.Ok? <==> (AsInt(limit).Some? && 0 <= AsInt(limit).value <= MaxPageLimit
                        && AsInt(offset).Some? && AsInt(offset).value >= 0)
    ensures r.Err? ==> r.error.ValidationError?
  {
    if AsInt(limit).None? || AsInt(limit).value < 0 then
      Err(ValidationError("Limit must be a non-negative integer, got " + TypeName(limit) + ": " + Str(limit)))
    else if AsInt(offset).None? || AsInt(offset).value < 0 then
      Err(ValidationError("Offset must be a non-negative integer, got " + TypeName(offset) + ": " + Str(offset)))
    else if AsInt(limit).value > MaxPageLimit then
      Err(ValidationError("Limit cannot exceed 1000, got " + Str(limit)))
    else Ok(())
  }

  /** A bad limit is the error reported, even when the offset is bad too. */
  lemma {:induction false} LimitReportedFirst(limit: Value, offset: Value)
    requires AsInt(limit).None? || AsInt(limit).value < 0
    ensures ValidatePaginationParams(limit, offset)
         == Err(ValidationError("Limit must be a non-negative integer, got " + TypeName(limit) + ": " + Str(limit)))
  {
  }

  // ---------------------------------------------------------------------
  // Email addresses: ^[a-zA-Z0-9._%+-]+@[a-zA-Z0-9.-]+\.[a-zA-Z]{2,}$

  predicate IsAsciiLetter(c: char) { 'a' <= c <= 'z' || 'A' <= c <= 'Z' }
  predicate IsAsciiDigit(c: char) { '0' <= c <= '9' }
  predicate IsLocalChar(c: char) { IsAsciiLetter(c) || IsAsciiDigit(c) || c in "._%+-" }
  predicate IsDomainChar(c: char) { IsAsciiLetter(c) || IsAsciiDigit(c) || c in ".-" }

  predicate AllLocal(s: string) { forall k :: 0 <= k < |s| ==> IsLocalChar(s[k]) }
  predicate AllDomain(s: string) { forall k :: 0 <= k < |s| ==> IsDomainChar(s[k]) }
  predicate AllLetters(s: string) { forall k :: 0 <= k < |s| ==> IsAsciiLetter(s[k]) }

  /** The pattern matched with '@' at position at and the final '.' at position dot. */
  predicate AddressSplit(a: string, at: int, dot: int)
  {
    0 < at && at + 1 < dot && dot + 3 <= |a| && a[at] == '@' && a[dot] == '.'
    && AllLocal(a[..at]) && AllDomain(a[at + 1..dot]) && AllLetters(a[dot + 1..])
  }

  /** The whole of a matches the address pattern, with some choice of the two split points. */
  ghost predicate IsAddress(a: string)
  {
    exists at, dot :: AddressSplit(a, at, dot)
  }

  /** The position of the first c in s, or |s|. */
  function FirstIndex(s: string, c: char): (i: nat)
    ensures i <= |s| && (i < |s| ==> s[i] == c)
    ensures forall k :: 0 <= k < i ==> s[k] != c
    decreases |s|
  {
    if s == [] then 0
    else if s[0] == c then 0
    else 1 + FirstIndex(s[1..], c)
  }

  /** The position of the last c in s, or -1. */
  function LastIndex(s: string, c: char): (i: int)
    ensures -1 <= i < |s| && (i >= 0 ==> s[i] == c)
    ensures forall k :: i < k < |s| ==> s[k] != c
    decreases |s|
  {
    if s == [] then -1
    else if s[|s| - 1] == c then |s| - 1
    else LastIndex(s[..|s| - 1], c)
  }

  lemma {:induction false} FirstIndexIs(s: string, c: char, i: int)
    requires 0 <= i < |s| && s[i] == c && forall k :: 0 <= k < i ==> s[k] != c
    ensures FirstIndex(s, c) == i
  {
  }

  lemma {:induction false} LastIndexIs(s: string, c: char, i: int)
    requires 0 <= i < |s| && s[i] == c && forall k :: i < k < |s| ==> s[k] != c
    ensures LastIndex(s, c) == i
  {
  }

  /** A match can only split at the first '@' and the last '.'. */
  lemma {:induction false} SplitPointsForced(a: string, at: int, dot: int)
    requires AddressSplit(a, at, dot)
    ensures at == FirstIndex(a, '@') && dot == LastIndex(a, '.')
  {
    forall k | 0 <= k < at ensures a[k] != '@' {
      assert IsLocalChar(a[..at][k]);
    }
    FirstIndexIs(a, '@', at);
    forall k | dot < k < |a| ensures a[k] != '.' {
      assert IsAsciiLetter(a[dot + 1..][k - dot - 1]);
    }
    LastIndexIs(a, '.', dot);
  }

  /**
   * The match decided with no search: the '@' can only be the first one
   * (the local part has none) and the '.' only the last one (the
   * top-level part has none).
   */
  function MatchAddress(a: string): (b: bool)
    ensures b <==> IsAddress(a)
  {
    var at := FirstIndex(a, '@');
    var dot := LastIndex(a, '.');
    if AddressSplit(a, at, dot) then true
    else
      assert !IsAddress(a) by {
        forall i, j | AddressSplit(a, i, j) ensures false {
          SplitPointsForced(a, i, j);
        }
      }
      false
  }

  /**
   * The address check as written: Python's `$` also matches just before a
   * final newline, so the pattern is satisfied by an address followed by "\n".
   */
  predicate EmailMatchesAsWritten(s: string)
  {
    MatchAddress(s) || (|s| > 0 && s[|s| - 1] == '\n' && MatchAddress(s[..|s| - 1]))
  }

  /** _validate_email as written. */
  function ValidateEmailAsWritten(email: Value): (r: Result<(), StoreError>)
    ensures r.Ok? <==> email.PyStr? && EmailMatchesAsWritten(email.s)
  {
    if !Truthy(email) || !email.PyStr? then Err(ValidationError("Email cannot be empty and must be a string"))
    else if !EmailMatchesAsWritten(email.s) then Err(ValidationError("Invalid email format: " + email.s))
    else Ok(())
  }

  /** An address with a trailing newline gets through the check as written. */
  lemma {:induction false} TrailingNewlineAccepted()
    ensures ValidateEmailAsWritten(PyStr("a@b.co\n")).Ok?
  {
    ShortAddress();
    NewlineAfterAddressAccepted("a@b.co");
    assert "a@b.co" + "\n" == "a@b.co\n";
  }

  /** Any valid address followed by a newline passes the check as written. */
  lemma {:induction false} NewlineAfterAddressAccepted(a: string)
    requires IsAddress(a)
    ensures ValidateEmailAsWritten(PyStr(a + "\n")).Ok?
  {
    var s := a + "\n";
    assert s[..|s| - 1] == a;
    assert MatchAddress(a);
    assert EmailMatchesAsWritten(s);
  }

  lemma {:induction false} ShortAddress()
    ensures IsAddress("a@b.co")
  {
    var a := "a@b.co";
    assert a[..1] == "a" && a[2..3] == "b" && a[4..] == "co";
    assert AddressSplit(a, 1, 3);
  }

  /** _validate_email with the pattern required to match the whole string. */
  function ValidateEmail(email: Value): (r: Result<(), StoreError>)
    ensures r.Ok? <==> email.PyStr? && IsAddress(email.s)
    ensures r.Err? ==> r.error.ValidationError?
  {
    if !Truthy(email) || !email.PyStr? then Err(ValidationError("Email cannot be empty and must be a string"))
    else if !MatchAddress(email.s) then Err(ValidationError("Invalid email format: " + email.s))
    else Ok(())
  }

  /** Every character of an accepted address is one the pattern names: in particular no newline. */
  lemma {:induction false} AcceptedEmailHasNoNewline(email: Value)
    requires ValidateEmail(email).Ok?
    ensures '\n' !in email.s
  {
    var a := email.s;
    var at, dot :| AddressSplit(a, at, dot);
    forall k | 0 <= k < |a| ensures a[k] != '\n' {
      if k < at {
        assert IsLocalChar(a[..at][k]);
      } else if at < k < dot {
        assert IsDomainChar(a[at + 1..dot][k - at - 1]);
      } else if dot < k {
        assert IsAsciiLetter(a[dot + 1..][k - dot - 1]);
      }
    }
  }

  // ---------------------------------------------------------------------
  // datetime.strptime(s, "%Y-%m-%d")

  datatype Ymd = Ymd(year: int, month: int, day: int)

  predicate IsLeap(y: int)
  {
    y % 4 == 0 && (y % 100 != 0 || y % 400 == 0)
  }

  function DaysInMonth(y: int, m: int): (n: int)
    requires 1 <= m <= 12
    ensures 28 <= n <= 31
  {
    if m == 2 then (if IsLeap(y) then 29 else 28)
    else if m in {4, 6, 9, 11} then 30
    else 31
  }

  /** A date datetime accepts. */
  predicate IsRealDate(d: Ymd)
  {
    1 <= d.year <= 9999 && 1 <= d.month <= 12 && 1 <= d.day <= DaysInMonth(d.year, d.month)
  }

  function DigitValue(c: char): int
  {
    c as int - '0' as int
  }

  predicate AllDigits(s: string) { forall k :: 0 <= k < |s| ==> IsAsciiDigit(s[k]) }

  /** A one- or two-character token of strptime's %m: 1[0-2]|0[1-9]|[1-9]. */
  predicate IsMonthToken(t: string)
  {
    (|t| == 1 && '1' <= t[0] <= '9')
    || (|t| == 2 && ((t[0] == '1' && '0' <= t[1] <= '2') || (t[0] == '0' && '1' <= t[1] <= '9')))
  }

  /** A token of strptime's %d: 3[01]|[12]\d|0[1-9]|[1-9]| [1-9]. */
  predicate IsDayToken(t: string)
  {
    (|t| == 1 && '1' <= t[0] <= '9')
    || (|t| == 2 && ((t[0] == '3' && (t[1] == '0' || t[1] == '1'))
                     || ((t[0] == '1' || t[0] == '2') && IsAsciiDigit(t[1]))
                     || ((t[0] == '0' || t[0] == ' ') && '1' <= t[1] <= '9')))
  }

  /** The value of a month or day token (a leading space or zero counts for nothing). */
  function TokenValue(t: string): int
  {
    if |t| == 1 then DigitValue(t[0])
    else if |t| == 2 then (if t[0] == ' ' then 0 else 10 * DigitValue(t[0])) + DigitValue(t[1])
    else 0
  }

  function YearValue(s: string): int
    requires |s| >= 4
  {
    1000 * DigitValue(s[0]) + 100 * DigitValue(s[1]) + 10 * DigitValue(s[2]) + DigitValue(s[3])
  }

  /**
   * strptime(s, "%Y-%m-%d"): four digits, '-', a month token, '-', a day
   * token and nothing else, naming a real date.  Tokens hold no '-', so
   * the second '-' is the first one after the year.
   */
  function StrptimeYmd(s: string): (r: Option<Ymd>)
    ensures r.Some? ==> IsRealDate(r.value)
  {
    if |s| < 8 || !AllDigits(s[..4]) || s[4] != '-' then None
    else
      var rest := s[5..];
      var j := FirstIndex(rest, '-');
      if j == |rest| then None
      else
        var mt, dt := rest[..j], rest[j + 1..];
        if !IsMonthToken(mt) || !IsDayToken(dt) then None
        else
          var d := Ymd(YearValue(s), TokenValue(mt), TokenValue(dt));
          if IsRealDate(d) then Some(d) else None
  }

  /** BaseStore._is_valid_date_format: strptime alone. */
  predicate IsValidDateFormat(s: string)
  {
    StrptimeYmd(s).Some?
  }

  /** Without the pattern pre-check, single-digit months and days pass. */
  lemma {:induction false} ShortFormAccepted()
    ensures IsValidDateFormat("2024-1-5")
  {
    var s := "2024-1-5";
    assert s[..4] == "2024" && s[5..] == "1-5";
    assert FirstIndex("1-5", '-') == 1;
    assert "1-5"[..1] == "1" && "1-5"[2..] == "5";
    assert StrptimeYmd(s) == Some(Ymd(2024, 1, 5));
  }

  /** A 30th of February is refused whatever its spelling. */
  lemma {:induction false} NoThirtiethOfFebruary(s: string)
    requires StrptimeYmd(s).Some? && StrptimeYmd(s).value.month == 2
    ensures StrptimeYmd(s).value.day <= 29
  {
  }

  // ---------------------------------------------------------------------
  // The store's connection life cycle

  /** What one connection attempt does: connect, or raise with or without leaving a new session behind. */
  datatype Attempt =
    | Connected
    | OperationalFailure(msg: string, sessionCreated: bool)
    | OtherFailure(kind: string, msg: string)

  function Pow2(n: nat): (p: nat)
    ensures p >= 1
  {
    if n == 0 then 1 else 2 * Pow2(n - 1)
  }

  function ConnectFailure(maxRetries: int, last: string): string
  {
    "Failed to connect to database after " + Text.IntToString(maxRetries) + " attempts: " + last
  }

  /**
   * _init_db_connection from attempt onward: the outcome and the sleeps it
   * takes, 2^attempt seconds after each failed attempt but the last.
   */
  function ConnectFrom(attempt: nat, last: string, maxRetries: int, connect: nat -> Attempt)
    : (r: (Result<(), StoreError>, seq<nat>))
    ensures attempt < maxRetries ==> |r.1| < maxRetries - attempt
    ensures forall k :: 0 <= k < |r.1| ==> r.1[k] == Pow2(attempt + k + 1)
    decreases maxRetries - attempt
  {
    if attempt >= maxRetries then (Err(ConnectionError(ConnectFailure(maxRetries, last))), [])
    else
      match connect(attempt)
      case Connected => (Ok(()), [])
      case OtherFailure(kind, msg) => (Err(Unhandled(kind, msg)), [])
      case OperationalFailure(msg, _) =>
        var next := ConnectFrom(attempt + 1, msg, maxRetries, connect);
        if attempt + 1 < maxRetries then (next.0, [Pow2(attempt + 1)] + next.1) else next
  }

  /** Whether a session is left behind after the attempts from attempt onward. */
  function SessionAfter(attempt: nat, had: bool, maxRetries: int, connect: nat -> Attempt): bool
    decreases maxRetries - attempt
  {
    if attempt >= maxRetries then had
    else
      match connect(attempt)
      case Connected => true
      case OtherFailure(_, _) => had
      case OperationalFailure(_, created) => SessionAfter(attempt + 1, had || created, maxRetries, connect)
  }

  /** Setup succeeds iff some attempt connects before every earlier one failed operationally. */
  lemma {:induction false} ConnectSucceedsIff(attempt: nat, last: string, maxRetries: int, connect: nat -> Attempt)
    ensures ConnectFrom(attempt, last, maxRetries, connect).0.Ok?
        <==> exists k :: attempt <= k < maxRetries && connect(k).Connected?
                         && forall j :: attempt <= j < k ==> connect(j).OperationalFailure?
    decreases maxRetries - attempt
  {
    if attempt < maxRetries && connect(attempt).OperationalFailure? {
      ConnectSucceedsIff(attempt + 1, connect(attempt).msg, maxRetries, connect);
      var r := ConnectFrom(attempt, last, maxRetries, connect);
      if r.0.Ok? {
        var k :| attempt + 1 <= k < maxRetries && connect(k).Connected?
                 && forall j :: attempt + 1 <= j < k ==> connect(j).OperationalFailure?;
        assert attempt <= k;
      } else {
        forall k | attempt <= k < maxRetries && connect(k).Connected?
          ensures exists j :: attempt <= j < k && !connect(j).OperationalFailure?
        {
          assert k != attempt;
          var j :| attempt + 1 <= j < k && !connect(j).OperationalFailure?;
        }
      }
    } else if attempt < maxRetries && connect(attempt).Connected? {
      assert attempt <= attempt < maxRetries && connect(attempt).Connected?;
    }
  }

  /** When every attempt fails operationally the error names the last one. */
  lemma {:induction false} AllFailReportsLast(attempt: nat, last: string, maxRetries: int, connect: nat -> Attempt)
    requires attempt < maxRetries
    requires forall j :: attempt <= j < maxRetries ==> connect(j).OperationalFailure?
    ensures ConnectFrom(attempt, last, maxRetries, connect).0
         == Err(ConnectionError(ConnectFailure(maxRetries, connect(maxRetries - 1).msg)))
    ensures |ConnectFrom(attempt, last, maxRetries, connect).1| == maxRetries - attempt - 1
    decreases maxRetries - attempt
  {
    if attempt + 1 < maxRetries {
      AllFailReportsLast(attempt + 1, connect(attempt).msg, maxRetries, connect);
    }
  }

  /** A store: its retry budget, whether it holds a session, and the sleeps its setup took. */
  class Store {
    const maxRetries: int
    var hasSession: bool
    var sleeps: seq<nat>

    constructor (maxRetries: int)
      requires maxRetries >= 1
      ensures this.maxRetries == maxRetries && !hasSession && sleeps == []
    {
      this.maxRetries := maxRetries;
      hasSession := false;
      sleeps := [];
    }

    /** _init_db_connection: the retry loop. */
    method InitDbConnection(connect: nat -> Attempt) returns (r: Result<(), StoreError>)
      modifies this
      ensures r == ConnectFrom(0, "None", maxRetries, connect).0
      ensures sleeps == old(sleeps) + ConnectFrom(0, "None", maxRetries, connect).1
      ensures hasSession == SessionAfter(0, old(hasSession), maxRetries, connect)
    {
      var attempt: nat := 0;
      var last := "None";
      while attempt < maxRetries
        invariant ConnectFrom(0, "None", maxRetries, connect).0 == ConnectFrom(attempt, last, maxRetries, connect).0
        invariant sleeps + ConnectFrom(attempt, last, maxRetries, connect).1
               == old(sleeps) + ConnectFrom(0, "None", maxRetries, connect).1
        invariant SessionAfter(0, old(hasSession), maxRetries, connect)
               == SessionAfter(attempt, hasSession, maxRetries, connect)
        decreases maxRetries - attempt
      {
        match connect(attempt) {
          case Connected =>
            hasSession := true;
            return Ok(());
          case OtherFailure(kind, msg) =>
            return Err(Unhandled(kind, msg));
          case OperationalFailure(msg, created) =>
            if created {
              hasSession := true;
            }
            ghost var tail := ConnectFrom(attempt + 1, msg, maxRetries, connect).1;
            attempt := attempt + 1;
            last := msg;
            if attempt < maxRetries {
              sleeps := sleeps + [Pow2(attempt)];
              assert sleeps + tail == old(sleeps) + ConnectFrom(0, "None", maxRetries, connect).1;
            }
        }
      }
      r := Err(ConnectionError(ConnectFailure(maxRetries, last)));
    }

    /** _get_session. */
    method GetSession() returns (r: Result<(), StoreError>)
      ensures r.Ok? <==> hasSession
      ensures r.Err? ==> r.error == DatabaseOperationError("No database session available")
    {
      if !hasSession {
        return Err(DatabaseOperationError("No database session available"));
      }
      return Ok(());
    }

    /** close: the session is dropped whether or not closing it raises. */
    method Close()
      modifies this
      ensures !hasSession && sleeps == old(sleeps)
    {
      if hasSession {
        hasSession := false;
      }
    }
  }

  /** BaseStore(max_retries): validate, then set up the connection. */
  method NewStore(maxRetries: Value, connect: nat -> Attempt) returns (r: Result<Store, StoreError>)
    ensures ValidateMaxRetries(maxRetries).Err? ==> r == Err(ValidateMaxRetries(maxRetries).error)
    ensures ValidateMaxRetries(maxRetries).Ok? ==>
      (var n := ValidateMaxRetries(maxRetries).value;
       (r.Ok? <==> ConnectFrom(0, "None", n, connect).0.Ok?)
       && (r.Err? ==> r.error == ConnectFrom(0, "None", n, connect).0.error)
       && (r.Ok? ==> fresh(r.value) && r.value.maxRetries == n && r.value.hasSession))
  {
    var checked := ValidateMaxRetries(maxRetries);
    if checked.Err? {
      return Err(checked.error);
    }
    var store := new Store(checked.value);
    var outcome := store.InitDbConnection(connect);
    if outcome.Err? {
      return Err(outcome.error);
    }
    ConnectedLeavesSession(0, false, store.maxRetries, connect, "None");
    return Ok(store);
  }

  /** A successful setup leaves a session behind. */
  lemma {:induction false} ConnectedLeavesSession(attempt: nat, had: bool, maxRetries: int, connect: nat -> Attempt, last: string)
    requires ConnectFrom(attempt, last, maxRetries, connect).0.Ok?
    ensures SessionAfter(attempt, had, maxRetries, connect)
    decreases maxRetries - attempt
  {
    if attempt < maxRetries && connect(attempt).OperationalFailure? {
      ConnectedLeavesSession(attempt + 1, had || connect(attempt).sessionCreated, maxRetries, connect, connect(attempt).msg);
    }
  }
}
