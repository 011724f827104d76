/**
 The login limiter of accounts.py: verify_login writes every attempt that was not
 locked out to login_attempts, and reads the recent failures of the same username
 back before it looks at the account. Times are whole seconds, as SQLite's
 datetime('now') stores them.
 */
module LoginLimiter {
  import opened Options
  import opened TimeWindows

  const MAX_FAILED_ATTEMPTS := 5
  const LOCKOUT_WINDOW_S := 15 * 60

  datatype Account = Account(passwordHash: string, active: bool, expiresAt: Option<int>)

  datatype Attempt = Attempt(username: string, success: bool, ip: Option<string>, at: int)

  datatype LoginResult = LoggedIn(account: Account) | LockedOut | InvalidCredentials | AccountInactive | AccountExpired

  /**
   One verify_login call: what it was given, what it found, and the three times it
   reads the clock (for the lockout query, for the expiry and for the logged row).
   */
  datatype Call = Call(
    username: string, account: Option<Account>, passwordMatches: bool, ip: Option<string>,
    checkedAt: int, expiryAt: int, recordedAt: int)

  /** Times of the failed attempts on a username, in log order. */
  function FailureTimes(log: seq<Attempt>, username: string): seq<int> {
    if log == [] then []
    else
      var last := log[|log| - 1];
      FailureTimes(log[..|log| - 1], username) + (if last.username == username && !last.success then [last.at] else [])
  }

  /** attempted_at is strictly later than the cutoff, which in whole seconds is one second more. */
  predicate IsLockedOut(log: seq<Attempt>, username: string, now: int) {
    CountSince(FailureTimes(log, username), now - LOCKOUT_WINDOW_S + 1) >= MAX_FAILED_ATTEMPTS
  }

  function Decide(log: seq<Attempt>, call: Call): LoginResult {
    if IsLockedOut(log, call.username, call.checkedAt) then LockedOut
    else if call.account.None? then InvalidCredentials
    else
      var account := call.account.value;
      if !account.active then AccountInactive
      else if account.expiresAt.Some? && call.expiryAt > account.expiresAt.value then AccountExpired
      else if !call.passwordMatches then InvalidCredentials
      else LoggedIn(account)
  }

  /** A locked-out call leaves no trace; every other one is logged as a success or a failure. */
  function Logged(log: seq<Attempt>, call: Call): seq<Attempt> {
    var result := Decide(log, call);
    if result.LockedOut? then log
    else log + [Attempt(call.username, result.LoggedIn?, call.ip, call.recordedAt)]
  }

  class AccountStore {
    var accounts: map<string, Account>
    var attempts: seq<Attempt>

    constructor ()
      ensures accounts == map[] && attempts == []
    {
      accounts, attempts := map[], [];
    }

    method RecordAttempt(username: string, success: bool, ip: Option<string>, now: int)
      modifies this`attempts
      ensures attempts == old(attempts) + [Attempt(username, success, ip, now)]
    {
      attempts := attempts + [Attempt(username, success, ip, now)];
    }

    /** matches is the password check against a stored hash. */
    method VerifyLogin(username: string, password: string, ip: Option<string>, matches: (string, string) -> bool,
                       checkedAt: int, expiryAt: int, recordedAt: int)
      returns (result: LoginResult)
      modifies this`attempts
      ensures var account := if username in accounts then Some(accounts[username]) else None;
              var passwordMatches := account.Some? && matches(password, account.value.passwordHash);
              var call := Call(username, account, passwordMatches, ip, checkedAt, expiryAt, recordedAt);
              result == Decide(old(attempts), call) && attempts == Logged(old(attempts), call)
    {
      if IsLockedOut(attempts, username, checkedAt) {
        return LockedOut;
      }
      if username !in accounts {
        RecordAttempt(username, false, ip, recordedAt);
        return InvalidCredentials;
      }
      var account := accounts[username];
      if !account.active {
        RecordAttempt(username, false, ip, recordedAt);
        return AccountInactive;
      }
      if account.expiresAt.Some? && expiryAt > account.expiresAt.value {
        RecordAttempt(username, false, ip, recordedAt);
        return AccountExpired;
      }
      if !matches(password, account.passwordHash) {
        RecordAttempt(username, false, ip, recordedAt);
        return InvalidCredentials;
      }
      RecordAttempt(username, true, ip, recordedAt);
      return LoggedIn(account);
    }
  }

  // --- whole runs ---

  /**
   Calls made one after the other on a clock that never goes back. The accounts,
   the passwords and the outcomes are arbitrary and may change between calls.
   */
  ghost predicate Sequential(calls: seq<Call>) {
    && (forall i :: 0 <= i < |calls| ==> calls[i].checkedAt <= calls[i].expiryAt <= calls[i].recordedAt)
    && (forall i, j :: 0 <= i < j < |calls| ==> calls[i].recordedAt <= calls[j].checkedAt)
  }

  /** The log after the first n calls of a run that starts with an empty one. */
  function LogAfter(calls: seq<Call>, n: nat): seq<Attempt>
    requires n <= |calls|
  {
    if n == 0 then [] else Logged(LogAfter(calls, n - 1), calls[n - 1])
  }

  /** Times of the failures of a username that a whole run logs. */
  function FailuresIn(calls: seq<Call>, username: string): seq<int> {
    FailureTimes(LogAfter(calls, |calls|), username)
  }

  ghost predicate WithinLimit(times: seq<int>, latest: int) {
    && Sorted(times)
    && (forall i :: 0 <= i < |times| ==> times[i] <= latest)
    && EveryEntrySawAtMost(times, LOCKOUT_WINDOW_S - 1, MAX_FAILED_ATTEMPTS)
  }

  lemma {:induction false} LaterEntryKeepsOrder(times: seq<int>, latest: int, at: int)
    requires Sorted(times) && (forall i :: 0 <= i < |times| ==> times[i] <= latest) && latest <= at
    ensures Sorted(times + [at]) && forall i :: 0 <= i <= |times| ==> (times + [at])[i] <= at
  {
  }

  /** An entry that sees at most k of the entries up to it keeps every entry at that. */
  lemma {:induction false} LaterEntryKeepsCounts(times: seq<int>, at: int, width: nat, k: nat)
    requires EveryEntrySawAtMost(times, width, k) && CountSince(times + [at], at - width) <= k
    ensures EveryEntrySawAtMost(times + [at], width, k)
  {
    AppendedEntry(times, at, width);
    var longer := times + [at];
    forall i | 0 <= i < |longer|
      ensures CountAtEntry(longer, i, width) <= k
    {
      if i < |times| {
        assert CountAtEntry(times, i, width) <= k;
      }
    }
  }

  lemma {:induction false} OneMoreSince(times: seq<int>, at: int, cutoff: int)
    ensures CountSince(times + [at], cutoff) == CountSince(times, cutoff) + (if at >= cutoff then 1 else 0)
  {
    assert (times + [at])[..|times|] == times;
  }

  /** A failure let through by the lockout check keeps the limit, although the clock moved on before it was logged. */
  lemma {:induction false} OneMoreFailure(times: seq<int>, latest: int, checkedAt: int, recordedAt: int)
    requires WithinLimit(times, latest) && latest <= checkedAt <= recordedAt
    requires CountSince(times, checkedAt - LOCKOUT_WINDOW_S + 1) < MAX_FAILED_ATTEMPTS
    ensures WithinLimit(times + [recordedAt], recordedAt)
  {
    var width := LOCKOUT_WINDOW_S - 1;
    LaterEntryKeepsOrder(times, latest, recordedAt);
    CountSinceAntitone(times, checkedAt - width, recordedAt - width);
    OneMoreSince(times, recordedAt, recordedAt - width);
    LaterEntryKeepsCounts(times, recordedAt, width, MAX_FAILED_ATTEMPTS);
  }

  predicate LogsFailure(log: seq<Attempt>, call: Call, username: string) {
    var result := Decide(log, call);
    call.username == username && !result.LockedOut? && !result.LoggedIn?
  }

  lemma {:induction false} FailureIsAppended(log: seq<Attempt>, call: Call, username: string)
    ensures var times := FailureTimes(log, username);
            FailureTimes(Logged(log, call), username) == if LogsFailure(log, call, username) then times + [call.recordedAt] else times
  {
    var longer := Logged(log, call);
    if longer != log {
      assert longer[..|longer| - 1] == log;
    }
  }

  lemma {:induction false} OneMoreCall(log: seq<Attempt>, call: Call, username: string, latest: int)
    requires WithinLimit(FailureTimes(log, username), latest)
    requires latest <= call.checkedAt <= call.recordedAt
    ensures WithinLimit(FailureTimes(Logged(log, call), username), call.recordedAt)
  {
    FailureIsAppended(log, call, username);
    if LogsFailure(log, call, username) {
      OneMoreFailure(FailureTimes(log, username), latest, call.checkedAt, call.recordedAt);
    }
  }

  /** No later than any clock reading still to come after n calls. */
  function Latest(calls: seq<Call>, n: nat): int
    requires n <= |calls|
  {
    if n > 0 then calls[n - 1].recordedAt else if calls != [] then calls[0].checkedAt else 0
  }

  lemma {:induction false} ClockGoesOn(calls: seq<Call>, n: nat)
    requires Sequential(calls) && n < |calls|
    ensures Latest(calls, n) <= calls[n].checkedAt <= calls[n].recordedAt == Latest(calls, n + 1)
  {
  }

  lemma {:induction false} LogStaysWithinLimit(calls: seq<Call>, n: nat, username: string)
    requires Sequential(calls) && n <= |calls|
    ensures WithinLimit(FailureTimes(LogAfter(calls, n), username), Latest(calls, n))
  {
    if n > 0 {
      LogStaysWithinLimit(calls, n - 1, username);
      ClockGoesOn(calls, n - 1);
      OneMoreCall(LogAfter(calls, n - 1), calls[n - 1], username, Latest(calls, n - 1));
    }
  }

  /**
   Whatever the accounts, passwords and successes in between, no stretch of fifteen
   minutes (open at one end) ever holds more than five failures of a username.
   */
  lemma {:induction false} AtMostFiveFailuresPerWindow(calls: seq<Call>, username: string, lo: int)
    requires Sequential(calls)
    ensures WindowCount(FailuresIn(calls, username), lo, LOCKOUT_WINDOW_S - 1) <= MAX_FAILED_ATTEMPTS
  {
    LogStaysWithinLimit(calls, |calls|, username);
    EntryCountsBoundEveryWindow(FailuresIn(calls, username), LOCKOUT_WINDOW_S - 1, MAX_FAILED_ATTEMPTS, lo);
  }

  // --- how wide the window may be ---

  function FailingCall(username: string, now: int): Call {
    Call(username, None, false, None, now, now, now)
  }

  /** Ten calls by somebody without an account: five at one instant and five exactly fifteen minutes later. */
  function TwoBursts(username: string): (calls: seq<Call>)
    ensures |calls| == 10
    ensures forall k :: 0 <= k < 10 ==> calls[k] == FailingCall(username, if k < 5 then 0 else LOCKOUT_WINDOW_S)
  {
    seq(10, k => FailingCall(username, if k < 5 then 0 else LOCKOUT_WINDOW_S))
  }

  /** The times of the first n of them. */
  function BurstTimes(n: nat): seq<int> {
    if n == 0 then [] else BurstTimes(n - 1) + [if n <= 5 then 0 else LOCKOUT_WINDOW_S]
  }

  lemma {:induction false} BurstCounts(n: nat, lo: int, hi: int)
    ensures CountSince(BurstTimes(n), lo)
         == (if lo > 0 then 0 else if n <= 5 then n else 5) + (if lo > LOCKOUT_WINDOW_S || n <= 5 then 0 else n - 5)
    ensures lo <= 0 && hi >= LOCKOUT_WINDOW_S ==> CountWithin(BurstTimes(n), lo, hi) == n
  {
    if n > 0 {
      BurstCounts(n - 1, lo, hi);
      var times := BurstTimes(n);
      assert times[..|times| - 1] == BurstTimes(n - 1);
    }
  }

  /** The second burst finds the first one just outside the lockout window. */
  lemma {:induction false} TwoBurstsAreLetThrough(username: string, n: nat)
    requires n <= 10
    ensures FailureTimes(LogAfter(TwoBursts(username), n), username) == BurstTimes(n)
  {
    if n > 0 {
      TwoBurstsAreLetThrough(username, n - 1);
      var call := TwoBursts(username)[n - 1];
      BurstCounts(n - 1, call.checkedAt - LOCKOUT_WINDOW_S + 1, call.checkedAt);
      FailureIsAppended(LogAfter(TwoBursts(username), n - 1), call, username);
    }
  }

  /** A quarter of an hour closed at both ends, or any longer stretch, can hold all ten. */
  lemma {:induction false} ClosedWindowHoldsTen(username: string, width: nat)
    requires width >= LOCKOUT_WINDOW_S
    ensures Sequential(TwoBursts(username)) && WindowCount(FailuresIn(TwoBursts(username), username), 0, width) == 10
  {
    TwoBurstsAreLetThrough(username, 10);
    BurstCounts(10, 0, width);
  }

  /** A closed quarter of an hour never holds more than ten. */
  lemma {:induction false} AtMostTenInAClosedWindow(calls: seq<Call>, username: string, lo: int)
    requires Sequential(calls)
    ensures WindowCount(FailuresIn(calls, username), lo, LOCKOUT_WINDOW_S) <= 2 * MAX_FAILED_ATTEMPTS
  {
    AtMostFiveFailuresPerWindow(calls, username, lo);
    AtMostFiveFailuresPerWindow(calls, username, lo + 1);
    TwoWindowsCover(FailuresIn(calls, username), lo, lo + LOCKOUT_WINDOW_S - 1, lo + 1, lo + LOCKOUT_WINDOW_S);
  }

  /** No run has a window of this width, closed at both ends, with more than five failures of the username. */
  ghost predicate KeepsFive(username: string, width: nat) {
    forall calls, lo ::
      Sequential(calls) ==> WindowCount(FailuresIn(calls, username), lo, width) <= MAX_FAILED_ATTEMPTS
  }

  lemma {:induction false} NarrowWindowKeepsFive(calls: seq<Call>, username: string, lo: int, width: nat)
    requires Sequential(calls) && width <= LOCKOUT_WINDOW_S - 1
    ensures WindowCount(FailuresIn(calls, username), lo, width) <= MAX_FAILED_ATTEMPTS
  {
    AtMostFiveFailuresPerWindow(calls, username, lo);
    WiderWindowHoldsMore(FailuresIn(calls, username), lo, lo + width, lo + LOCKOUT_WINDOW_S - 1);
  }

  /** The lockout keeps five failures per window exactly in windows shorter than its own fifteen minutes. */
  lemma {:induction false} FiveExactlyBelowTheLockoutWidth(username: string, width: nat)
    ensures KeepsFive(username, width) <==> width <= LOCKOUT_WINDOW_S - 1
  {
    if width <= LOCKOUT_WINDOW_S - 1 {
      forall calls, lo | Sequential(calls)
        ensures WindowCount(FailuresIn(calls, username), lo, width) <= MAX_FAILED_ATTEMPTS
      {
        NarrowWindowKeepsFive(calls, username, lo, width);
      }
    } else {
      ClosedWindowHoldsTen(username, width);
    }
  }

  // --- who gets in, and what is logged ---

  /** Failures of the call's username logged in the fifteen minutes before it. */
  function RecentFailures(calls: seq<Call>, j: nat): nat
    requires j < |calls|
  {
    CountSince(FailureTimes(LogAfter(calls, j), calls[j].username), calls[j].checkedAt - 899)
  }

  /** The account exists, is active and has not expired when it is looked at. */
  predicate AccountInOrder(call: Call) {
    call.account.Some? && call.account.value.active
    && (call.account.value.expiresAt.Some? ==> call.expiryAt <= call.account.value.expiresAt.value)
  }

  predicate GetsIn(calls: seq<Call>, j: nat)
    requires j < |calls|
  {
    RecentFailures(calls, j) < 5 && AccountInOrder(calls[j]) && calls[j].passwordMatches
  }

  /**
   Each answer is given in exactly these cases; a right password never gets one of the others while
   the account is in order.
   */
  lemma {:induction false} AnswersExactly(calls: seq<Call>, j: nat)
    requires j < |calls|
    ensures var call, result := calls[j], Decide(LogAfter(calls, j), calls[j]);
            var locked := RecentFailures(calls, j) >= 5;
            && (result.LoggedIn? <==> GetsIn(calls, j))
            && (result.LoggedIn? ==> call.account == Some(result.account))
            && (result.LockedOut? <==> locked)
            && (result.AccountInactive? <==> !locked && call.account.Some? && !call.account.value.active)
            && (result.AccountExpired?
                <==> !locked && call.account.Some? && call.account.value.active && !AccountInOrder(call))
            && (result.InvalidCredentials?
                <==> !locked && (call.account.None? || (AccountInOrder(call) && !call.passwordMatches)))
  {
  }

  /** A call that is locked out leaves no row; any other leaves a success if it gets in and a failure otherwise. */
  function RowLeft(calls: seq<Call>, j: nat): seq<Attempt>
    requires j < |calls|
  {
    if RecentFailures(calls, j) >= 5 then []
    else [Attempt(calls[j].username, GetsIn(calls, j), calls[j].ip, calls[j].recordedAt)]
  }

  lemma {:induction false} CallLeavesItsRow(calls: seq<Call>, j: nat)
    requires j < |calls|
    ensures LogAfter(calls, j + 1) == LogAfter(calls, j) + RowLeft(calls, j)
  {
    AnswersExactly(calls, j);
  }

  /** The log before the first call and after each one. */
  ghost function Logs(calls: seq<Call>): (logs: seq<seq<Attempt>>)
    ensures |logs| == |calls| + 1 && forall j :: 0 <= j <= |calls| ==> logs[j] == LogAfter(calls, j)
  {
    seq(|calls| + 1, j requires 0 <= j <= |calls| => LogAfter(calls, j))
  }

  /** Each sequence is the one before it with at most one element more. */
  ghost predicate GrowByOne<T>(logs: seq<seq<T>>) {
    |logs| > 0 && logs[0] == [] && forall j :: 0 < j < |logs| ==> logs[j - 1] <= logs[j] && |logs[j]| <= |logs[j - 1]| + 1
  }

  lemma {:induction false} EarlierIsPrefix<T>(logs: seq<seq<T>>, j: nat, n: nat)
    requires GrowByOne(logs) && j <= n < |logs|
    ensures logs[j] <= logs[n]
  {
    if j < n {
      EarlierIsPrefix(logs, j, n - 1);
    }
  }

  lemma {:induction false} AddedAt<T>(logs: seq<seq<T>>, n: nat, k: nat) returns (j: nat)
    requires GrowByOne(logs) && n < |logs| && k < |logs[n]|
    ensures j < n && |logs[j]| == k && |logs[j + 1]| == k + 1
  {
    if k < |logs[n - 1]| {
      j := AddedAt(logs, n - 1, k);
    } else {
      j := n - 1;
    }
  }

  lemma {:induction false} LogsGrow(calls: seq<Call>)
    ensures GrowByOne(Logs(calls))
  {
    var logs := Logs(calls);
    forall j | 0 < j < |logs|
      ensures logs[j - 1] <= logs[j] && |logs[j]| <= |logs[j - 1]| + 1
    {
      LoggedGrows(LogAfter(calls, j - 1), calls[j - 1]);
    }
  }

  lemma {:induction false} LoggedGrows(log: seq<Attempt>, call: Call)
    ensures log <= Logged(log, call) && |Logged(log, call)| <= |log| + 1
  {
  }

  /**
   A call that is not locked out has exactly one row in the log of the run, after those of
   the calls before it: a success if and only if it gets in.
   */
  lemma {:induction false} EachCallIsLogged(calls: seq<Call>, j: nat)
    requires j < |calls| && RecentFailures(calls, j) < 5
    ensures var logs := Logs(calls);
            var k, log := |logs[j]|, logs[|calls|];
            && |logs[j + 1]| == k + 1 <= |log|
            && log[k] == Attempt(calls[j].username, GetsIn(calls, j), calls[j].ip, calls[j].recordedAt)
  {
    CallLeavesItsRow(calls, j);
    LogsGrow(calls);
    EarlierIsPrefix(Logs(calls), j + 1, |calls|);
  }

  /** And every row of the log is the row of such a call, so a success is there only because somebody got in. */
  lemma {:induction false} EachRowHasItsCall(calls: seq<Call>, k: nat) returns (j: nat)
    requires k < |Logs(calls)[|calls|]|
    ensures j < |calls| && RecentFailures(calls, j) < 5 && k == |Logs(calls)[j]|
    ensures Logs(calls)[|calls|][k].success == GetsIn(calls, j)
  {
    LogsGrow(calls);
    j := AddedAt(Logs(calls), |calls|, k);
    CallLeavesItsRow(calls, j);
    EarlierIsPrefix(Logs(calls), j + 1, |calls|);
  }
}
