/**
 What holds over every run of outcomes, failures, misdispatches and clears.

 Each stored value is compared with a reading of the events alone: the standing of a
 class in dimensions B and C is the run of correct outcomes since its last miss or
 the last trip, a hold is the latest misdispatch that started one, and a trip
 happens when a five-minute window fills up.
 */
module TrustRuns {
  import opened Options
  import opened TimeWindows
  import opened TrustLadder
  import opened TrustDatabase

  // --- the moment of a trip ---

  /** The event is the failure that trips the breaker. */
  predicate TripsOn(db: Db, event: Event) {
    event.Failure? && Trips(db.failures, event.now)
  }

  predicate TripsAt(run: Run, k: nat)
    requires k < |run.events|
  {
    TripsOn(After(run, k), run.events[k])
  }

  lemma {:induction false} ResetReachesEveryClass(ledger: Ledger, classes: seq<string>, n: nat, cls: string)
    requires n <= |classes|
    ensures StandingOf(ResetClasses(ledger, classes, n), cls) == if cls in classes[..n] then SAFE_DEFAULT else StandingOf(ledger, cls)
  {
    if n > 0 {
      ResetReachesEveryClass(ledger, classes, n - 1, cls);
      assert classes[..n] == classes[..n - 1] + [classes[n - 1]];
    }
  }

  /** A reset of n classes writes n rows, in order, all counting as misses. */
  lemma {:induction false} ResetIsLogged(ledger: Ledger, classes: seq<string>, n: nat)
    requires n <= |classes|
    ensures Extends(ResetClasses(ledger, classes, n), ledger)
    ensures |ResetClasses(ledger, classes, n).history| == |ledger.history| + n
    ensures forall i :: 0 <= i < n ==>
              var row := ResetClasses(ledger, classes, n).history[|ledger.history| + i];
              row.cls == classes[i] && !row.correct
  {
    if n > 0 {
      ResetIsLogged(ledger, classes, n - 1);
    }
  }

  lemma {:induction false} ResetClassesKeepsSound(ledger: Ledger, classes: seq<string>, n: nat)
    requires n <= |classes| && Sound(ledger)
    ensures Sound(ResetClasses(ledger, classes, n))
  {
    if n > 0 {
      ResetClassesKeepsSound(ledger, classes, n - 1);
      ResetKeepsSound(ResetClasses(ledger, classes, n - 1), classes[n - 1]);
    }
  }

  /**
   A trip leaves nobody able to act, every known class at the safe default in B and C
   and no hold active; it logs one row per class in both histories, and whatever it
   has no business with stays.
   */
  lemma {:induction false} TripIsGlobal(policy: Policy, db: Db)
    ensures forall cls :: !TrustOf(Tripped(policy, db).trust, cls).state.CanAct?
    ensures forall cls :: cls in policy.classes ==>
              StandingOf(Tripped(policy, db).diagnoser, cls) == SAFE_DEFAULT == StandingOf(Tripped(policy, db).action, cls)
    ensures forall cls :: !HoldOf(Tripped(policy, db).holds, cls).active
    ensures |Tripped(policy, db).diagnoser.history| == |db.diagnoser.history| + |policy.classes|
    ensures |Tripped(policy, db).action.history| == |db.action.history| + |policy.classes|
    ensures forall cls :: cls !in policy.classes ==>
              && StandingOf(Tripped(policy, db).diagnoser, cls) == StandingOf(db.diagnoser, cls)
              && StandingOf(Tripped(policy, db).action, cls) == StandingOf(db.action, cls)
    ensures forall cls :: !TrustOf(db.trust, cls).state.CanAct? ==> TrustOf(Tripped(policy, db).trust, cls) == TrustOf(db.trust, cls)
    ensures Tripped(policy, db).failures == db.failures && Tripped(policy, db).misdispatches == db.misdispatches
  {
    var n := |policy.classes|;
    ResetIsLogged(db.diagnoser, policy.classes, n);
    ResetIsLogged(db.action, policy.classes, n);
    assert policy.classes[..n] == policy.classes;
    forall cls
      ensures StandingOf(Tripped(policy, db).diagnoser, cls) == if cls in policy.classes then SAFE_DEFAULT else StandingOf(db.diagnoser, cls)
      ensures StandingOf(Tripped(policy, db).action, cls) == if cls in policy.classes then SAFE_DEFAULT else StandingOf(db.action, cls)
    {
      ResetReachesEveryClass(db.diagnoser, policy.classes, n, cls);
      ResetReachesEveryClass(db.action, policy.classes, n, cls);
    }
  }

  // --- dimensions B and C over runs ---

  lemma {:induction false} TripKeepsSound(ledger: Ledger, classes: seq<string>)
    requires Sound(ledger)
    ensures Sound(ResetClasses(ledger, classes, |classes|))
  {
    ResetClassesKeepsSound(ledger, classes, |classes|);
  }

  datatype Dimension = B | C

  function LedgerOf(db: Db, dim: Dimension): Ledger {
    if dim.B? then db.diagnoser else db.action
  }

  /** The outcome an event carries for a class in dimension B or C. */
  function OutcomeIn(event: Event, dim: Dimension, cls: string): Option<bool> {
    match event
    case DiagnoserOutcome(c, correct) => if dim.B? && c == cls then Some(correct) else None
    case ActionOutcome(c, correct) => if dim.C? && c == cls then Some(correct) else None
    case _ => None
  }

  /** An event either leaves a ledger alone, records one outcome in it or resets every class of it. */
  lemma {:induction false} LedgerStep(policy: Policy, db: Db, event: Event, dim: Dimension)
    ensures var was := LedgerOf(db, dim);
            LedgerOf(Step(policy, db, event), dim)
            == if TripsOn(db, event) then ResetClasses(was, policy.classes, |policy.classes|)
               else if event.DiagnoserOutcome? && dim.B? then Recorded(was, event.cls, event.correct)
               else if event.ActionOutcome? && dim.C? then Recorded(was, event.cls, event.correct)
               else was
  {
  }

  lemma {:induction false} StepKeepsSound(policy: Policy, db: Db, event: Event, dim: Dimension)
    requires Sound(LedgerOf(db, dim))
    ensures Sound(LedgerOf(Step(policy, db, event), dim))
  {
    LedgerStep(policy, db, event, dim);
    if TripsOn(db, event) {
      TripKeepsSound(LedgerOf(db, dim), policy.classes);
    } else if event.DiagnoserOutcome? || event.ActionOutcome? {
      RecordKeepsSound(LedgerOf(db, dim), event.cls, event.correct);
    }
  }

  /** In every run each ledger stays the replay of its own history, whose rows chain. */
  lemma {:induction false} LedgersStaySound(run: Run, n: nat, dim: Dimension)
    requires n <= |run.events| && Sound(LedgerOf(run.start, dim))
    ensures Sound(LedgerOf(After(run, n), dim))
  {
    if n > 0 {
      LedgersStaySound(run, n - 1, dim);
      StepKeepsSound(run.policy, After(run, n - 1), run.events[n - 1], dim);
    }
  }

  /** A count of correct outcomes after one more event. */
  function Counted(was: nat, trips: bool, outcome: Option<bool>): nat {
    if trips then 0
    else match outcome
         case None => was
         case Some(correct) => if correct then was + 1 else 0
  }

  /** Correct outcomes of a class among events from..n since its last miss and the last trip. */
  function CorrectSince(run: Run, from: nat, n: nat, dim: Dimension, cls: string): nat
    requires n <= |run.events|
  {
    if n <= from then 0
    else Counted(CorrectSince(run, from, n - 1, dim, cls), TripsAt(run, n - 1), OutcomeIn(run.events[n - 1], dim, cls))
  }

  lemma {:induction false} StandingStep(policy: Policy, db: Db, event: Event, dim: Dimension, cls: string)
    requires cls in policy.classes
    ensures var was := StandingOf(LedgerOf(db, dim), cls);
            StandingOf(LedgerOf(Step(policy, db, event), dim), cls)
            == if TripsOn(db, event) then SAFE_DEFAULT
               else match OutcomeIn(event, dim, cls)
                    case None => was
                    case Some(correct) => Moved(was, correct)
  {
    if TripsOn(db, event) {
      TripIsGlobal(policy, db.(failures := db.failures + [event.now]));
    }
  }

  lemma {:induction false} StandingFollows(was: Standing, now: Standing, earned: nat, trips: bool,
      outcome: Option<bool>)
    requires was == Standing(earned >= PROMOTION_STREAK, earned)
    requires now == if trips then SAFE_DEFAULT else match outcome case None => was case Some(correct) => Moved(was, correct)
    ensures var counted := Counted(earned, trips, outcome); now == Standing(counted >= PROMOTION_STREAK, counted)
  {
  }

  /** In every run a class stands exactly where its correct outcomes since the last miss or trip put it. */
  lemma {:induction false} StandingIsWhatWasEarned(run: Run, from: nat, n: nat, dim: Dimension, cls: string)
    requires from <= n <= |run.events| && cls in run.policy.classes
    requires StandingOf(LedgerOf(After(run, from), dim), cls) == SAFE_DEFAULT
    ensures var earned := CorrectSince(run, from, n, dim, cls);
            StandingOf(LedgerOf(After(run, n), dim), cls) == Standing(earned >= PROMOTION_STREAK, earned)
  {
    if from < n {
      StandingIsWhatWasEarned(run, from, n - 1, dim, cls);
      StandingStep(run.policy, After(run, n - 1), run.events[n - 1], dim, cls);
      StandingFollows(StandingOf(LedgerOf(After(run, n - 1), dim), cls), StandingOf(LedgerOf(After(run, n), dim), cls),
                      CorrectSince(run, from, n - 1, dim, cls), TripsAt(run, n - 1), OutcomeIn(run.events[n - 1], dim, cls));
    }
  }

  /** After a trip a class is promoted again only by five correct outcomes in a row since that trip, and then it is. */
  lemma {:induction false} PromotionIsEarnedAfterATrip(run: Run, k: nat, n: nat, dim: Dimension, cls: string)
    requires k < n <= |run.events| && TripsAt(run, k) && cls in run.policy.classes
    ensures StandingOf(LedgerOf(After(run, n), dim), cls).promoted
       <==> CorrectSince(run, k + 1, n, dim, cls) >= PROMOTION_STREAK
  {
    StandingStep(run.policy, After(run, k), run.events[k], dim, cls);
    StandingIsWhatWasEarned(run, k + 1, n, dim, cls);
  }

  /** The same, read off the history table: the rows written since the trip. */
  lemma {:induction false} PromotionIsLoggedAfterATrip(run: Run, k: nat, n: nat, dim: Dimension, cls: string)
    requires k < n <= |run.events| && TripsAt(run, k) && cls in run.policy.classes
    requires Sound(LedgerOf(run.start, dim))
    ensures var mark := |LedgerOf(After(run, k + 1), dim).history|;
            var history := LedgerOf(After(run, n), dim).history;
            && mark <= |history|
            && (StandingOf(LedgerOf(After(run, n), dim), cls).promoted
                <==> TrailingRun(history, mark, |history|, cls) >= PROMOTION_STREAK)
  {
    StandingStep(run.policy, After(run, k), run.events[k], dim, cls);
    LedgersStaySound(run, k + 1, dim);
    LedgersStaySound(run, n, dim);
    HistoryOnlyGrows(run, k + 1, n, dim);
    EarnedSince(LedgerOf(After(run, k + 1), dim), LedgerOf(After(run, n), dim), cls);
  }

  lemma {:induction false} StepExtends(policy: Policy, db: Db, event: Event, dim: Dimension)
    ensures Extends(LedgerOf(Step(policy, db, event), dim), LedgerOf(db, dim))
  {
    LedgerStep(policy, db, event, dim);
    if TripsOn(db, event) {
      ResetIsLogged(LedgerOf(db, dim), policy.classes, |policy.classes|);
    }
  }

  lemma {:induction false} HistoryOnlyGrows(run: Run, m: nat, n: nat, dim: Dimension)
    requires m <= n <= |run.events|
    ensures Extends(LedgerOf(After(run, n), dim), LedgerOf(After(run, m), dim))
  {
    if m < n {
      HistoryOnlyGrows(run, m, n - 1, dim);
      StepExtends(run.policy, After(run, n - 1), run.events[n - 1], dim);
    }
  }

  // --- when the breaker trips ---

  function FailureTimes(events: seq<Event>, n: nat): seq<int>
    requires n <= |events|
  {
    if n == 0 then []
    else FailureTimes(events, n - 1) + (if events[n - 1].Failure? then [events[n - 1].now] else [])
  }

  lemma {:induction false} FailureStep(policy: Policy, db: Db, event: Event)
    ensures Step(policy, db, event).failures == if event.Failure? then db.failures + [event.now] else db.failures
  {
  }

  lemma {:induction false} FailuresAreLogged(run: Run, n: nat)
    requires n <= |run.events| && run.start.failures == []
    ensures After(run, n).failures == FailureTimes(run.events, n)
  {
    if n > 0 {
      FailuresAreLogged(run, n - 1);
      FailureStep(run.policy, After(run, n - 1), run.events[n - 1]);
    }
  }

  /** Some entry of the log saw a full window when it was written. */
  ghost predicate FullWindowSeen(times: seq<int>, width: nat, threshold: nat) {
    exists i :: 0 <= i < |times| && CountAtEntry(times, i, width) >= threshold
  }

  lemma {:induction false} OneMoreEntry(times: seq<int>, now: int, width: nat, threshold: nat)
    ensures FullWindowSeen(times + [now], width, threshold)
       <==> FullWindowSeen(times, width, threshold) || CountSince(times + [now], now - width) >= threshold
  {
    AppendedEntry(times, now, width);
    var longer := times + [now];
    if i :| 0 <= i < |longer| && CountAtEntry(longer, i, width) >= threshold {
      assert i < |times| ==> CountAtEntry(times, i, width) >= threshold;
    }
    if i :| 0 <= i < |times| && CountAtEntry(times, i, width) >= threshold {
      assert CountAtEntry(longer, i, width) >= threshold;
    }
  }

  predicate TrippedBy(run: Run, n: nat)
    requires n <= |run.events|
  {
    n > 0 && (TrippedBy(run, n - 1) || TripsAt(run, n - 1))
  }

  lemma {:induction false} ATripIsRemembered(run: Run, k: nat, n: nat)
    requires k < n <= |run.events| && TripsAt(run, k)
    ensures TrippedBy(run, n)
  {
    if k < n - 1 {
      ATripIsRemembered(run, k, n - 1);
    }
  }

  lemma {:induction false} RememberedTrip(run: Run, n: nat) returns (k: nat)
    requires n <= |run.events| && TrippedBy(run, n)
    ensures k < n && TripsAt(run, k)
  {
    if TripsAt(run, n - 1) {
      k := n - 1;
    } else {
      k := RememberedTrip(run, n - 1);
    }
  }

  ghost predicate TripSeen(db: Db) {
    FullWindowSeen(db.failures, FAILURE_WINDOW_S, FAILURE_THRESHOLD)
  }

  lemma {:induction false} TripIsSeen(policy: Policy, db: Db, event: Event)
    ensures TripSeen(Step(policy, db, event)) <==> TripSeen(db) || TripsOn(db, event)
  {
    FailureStep(policy, db, event);
    if event.Failure? {
      OneMoreEntry(db.failures, event.now, FAILURE_WINDOW_S, FAILURE_THRESHOLD);
    }
  }

  lemma {:induction false} TripSeenIsEntrySeen(run: Run, n: nat)
    requires n <= |run.events| && run.start.failures == []
    ensures TrippedBy(run, n) <==> TripSeen(After(run, n))
  {
    if n > 0 {
      TripSeenIsEntrySeen(run, n - 1);
      TripIsSeen(run.policy, After(run, n - 1), run.events[n - 1]);
    }
  }

  /**
   Under a clock that does not run backwards, the breaker trips in a run exactly when some five
   minutes hold three failures.
   */
  lemma {:induction false} TripsIffWindowFull(run: Run)
    requires run.start.failures == [] && Sorted(FailureTimes(run.events, |run.events|))
    ensures (exists k :: 0 <= k < |run.events| && TripsAt(run, k))
       <==> (exists lo :: WindowCount(FailureTimes(run.events, |run.events|), lo, FAILURE_WINDOW_S) >= FAILURE_THRESHOLD)
  {
    if k :| 0 <= k < |run.events| && TripsAt(run, k) {
      ATripIsRemembered(run, k, |run.events|);
    } else if TrippedBy(run, |run.events|) {
      var k := RememberedTrip(run, |run.events|);
    }
    TripSeenIsEntrySeen(run, |run.events|);
    FailuresAreLogged(run, |run.events|);
    ThresholdSeenIffWindowFull(FailureTimes(run.events, |run.events|), FAILURE_WINDOW_S, FAILURE_THRESHOLD);
  }

  // --- safety holds ---

  function HeldAfter(run: Run, n: nat, cls: string): Hold
    requires n <= |run.events|
  {
    HoldOf(After(run, n).holds, cls)
  }

  /** The event is a misdispatch of the class that makes three in 24 hours. */
  predicate FillsOn(db: Db, event: Event, cls: string) {
    && event.Misdispatched? && event.predicted == cls
    && RecentMisdispatches(db.misdispatches + [Misdispatch(cls, event.actual, event.now)], cls, event.now)
       >= MISDISPATCH_HOLD_THRESHOLD
  }

  predicate FillsWindow(run: Run, k: nat, cls: string)
    requires k < |run.events|
  {
    FillsOn(After(run, k), run.events[k], cls)
  }

  /** It also finds the class not held, so it starts a hold. */
  predicate StartsHold(run: Run, k: nat, cls: string)
    requires k < |run.events|
  {
    FillsWindow(run, k, cls) && !HeldAfter(run, k, cls).active
  }

  predicate Releases(run: Run, k: nat, cls: string)
    requires k < |run.events|
  {
    run.events[k] == ClearHold(cls) || TripsAt(run, k)
  }

  /** None of the events from..n is a clear of the class or a trip. */
  predicate Unreleased(run: Run, from: nat, n: nat, cls: string)
    requires n <= |run.events|
  {
    n <= from || (!Releases(run, n - 1, cls) && Unreleased(run, from, n - 1, cls))
  }

  /** Event k started a hold that nothing has released by event n. */
  predicate StartedAndKept(run: Run, k: nat, n: nat, cls: string)
    requires k < n <= |run.events|
  {
    StartsHold(run, k, cls) && Unreleased(run, k + 1, n, cls)
  }

  lemma {:induction false} TripOnHolds(policy: Policy, db: Db, cls: string)
    ensures var was := HoldOf(db.holds, cls);
            HoldOf(Tripped(policy, db).holds, cls) == if was.active then Hold(false, None) else was
  {
  }

  /** What one event does to the hold of one class. */
  lemma {:induction false} HoldStep(policy: Policy, db: Db, event: Event, cls: string)
    ensures var was := HoldOf(db.holds, cls);
            HoldOf(Step(policy, db, event).holds, cls)
            == if event == ClearHold(cls) || (TripsOn(db, event) && was.active) then Hold(false, None)
               else if FillsOn(db, event, cls) && !was.active then Hold(true, Some(event.now))
               else was
  {
    match event
    case Failure(now) => TripOnHolds(policy, db.(failures := db.failures + [now]), cls);
    case Misdispatched(predicted, actual, now) =>
    case ClearHold(c) =>
    case _ => assert Step(policy, db, event).holds == db.holds;
  }

  /** The event that started the hold in force after n events. */
  function Cause(run: Run, n: nat, cls: string): Option<nat>
    requires n <= |run.events|
  {
    if n == 0 || Releases(run, n - 1, cls) then None
    else if Cause(run, n - 1, cls).None? && FillsWindow(run, n - 1, cls) then Some(n - 1)
    else Cause(run, n - 1, cls)
  }

  /** The hold is the one the cause started. */
  predicate Explains(events: seq<Event>, n: nat, hold: Hold, cause: Option<nat>)
    requires n <= |events|
  {
    match cause
    case None => hold == Hold(false, None)
    case Some(k) => k < n && events[k].Misdispatched? && hold == Hold(true, Some(events[k].now))
  }

  lemma {:induction false} HoldFollows(events: seq<Event>, n: nat, was: Hold, now: Hold, cause: Option<nat>,
      next: Option<nat>, cleared: bool, trips: bool, fills: bool)
    requires 0 < n <= |events| && Explains(events, n - 1, was, cause)
    requires fills ==> events[n - 1].Misdispatched? && !cleared && !trips
    requires now == if cleared || (trips && was.active) then Hold(false, None)
                    else if fills && !was.active then Hold(true, Some(events[n - 1].now)) else was
    requires next == if cleared || trips then None else if cause.None? && fills then Some(n - 1) else cause
    ensures Explains(events, n, now, next)
  {
  }

  lemma {:induction false} HoldIsItsCause(run: Run, n: nat, cls: string)
    requires n <= |run.events| && HoldOf(run.start.holds, cls) == Hold(false, None)
    ensures Explains(run.events, n, HeldAfter(run, n, cls), Cause(run, n, cls))
  {
    if n > 0 {
      HoldIsItsCause(run, n - 1, cls);
      HoldStep(run.policy, After(run, n - 1), run.events[n - 1], cls);
      HoldFollows(run.events, n, HeldAfter(run, n - 1, cls), HeldAfter(run, n, cls), Cause(run, n - 1, cls), Cause(run, n, cls),
                  run.events[n - 1] == ClearHold(cls), TripsAt(run, n - 1), FillsWindow(run, n - 1, cls));
    }
  }

  lemma {:induction false} StartIsAFreshFill(run: Run, k: nat, cls: string)
    requires k < |run.events| && HoldOf(run.start.holds, cls) == Hold(false, None)
    ensures StartsHold(run, k, cls) <==> Cause(run, k + 1, cls) == Some(k)
    ensures Cause(run, k, cls) != Some(k)
  {
    HoldIsItsCause(run, k, cls);
  }

  lemma {:induction false} CauseIsTheKeptStart(run: Run, n: nat, cls: string, k: nat)
    requires k < n <= |run.events| && HoldOf(run.start.holds, cls) == Hold(false, None)
    ensures Cause(run, n, cls) == Some(k) <==> StartedAndKept(run, k, n, cls)
  {
    if k == n - 1 {
      StartIsAFreshFill(run, k, cls);
    } else {
      CauseIsTheKeptStart(run, n - 1, cls, k);
      OlderCause(run, n, cls, k);
    }
  }

  lemma {:induction false} OlderCause(run: Run, n: nat, cls: string, k: nat)
    requires k + 1 < n <= |run.events|
    ensures Cause(run, n, cls) == Some(k) <==> Cause(run, n - 1, cls) == Some(k) && !Releases(run, n - 1, cls)
  {
  }

  /**
   A class is held since t exactly when some misdispatch at t made three in 24 hours
   while it was not held and neither a clear nor a trip came after; a class that is
   not held has no such time.
   */
  lemma {:induction false} HoldHasACause(run: Run, n: nat, cls: string)
    requires n <= |run.events| && HoldOf(run.start.holds, cls) == Hold(false, None)
    ensures HeldAfter(run, n, cls).active <==> HeldAfter(run, n, cls).since.Some?
    ensures HeldAfter(run, n, cls).active <==> exists k :: 0 <= k < n && StartedAndKept(run, k, n, cls)
    ensures forall k :: 0 <= k < n && StartedAndKept(run, k, n, cls) ==>
              HeldAfter(run, n, cls).since == Some(run.events[k].now)
  {
    HoldIsItsCause(run, n, cls);
    forall k | 0 <= k < n
      ensures Cause(run, n, cls) == Some(k) <==> StartedAndKept(run, k, n, cls)
    {
      CauseIsTheKeptStart(run, n, cls, k);
    }
  }

  /** When the class was misdispatched, as the log of the first n events has it. */
  function Misdispatches(run: Run, n: nat, cls: string): seq<int>
    requires n <= |run.events|
  {
    MisdispatchTimes(After(run, n).misdispatches, cls)
  }

  predicate FilledBy(run: Run, n: nat, cls: string)
    requires n <= |run.events|
  {
    n > 0 && (FilledBy(run, n - 1, cls) || FillsWindow(run, n - 1, cls))
  }

  ghost predicate DaySeen(db: Db, cls: string) {
    FullWindowSeen(MisdispatchTimes(db.misdispatches, cls), MISDISPATCH_HOLD_WINDOW_S, MISDISPATCH_HOLD_THRESHOLD)
  }

  /** One more row fills a day exactly when it is of the class and makes three. */
  lemma {:induction false} RowIsSeen(rows: seq<Misdispatch>, row: Misdispatch, cls: string)
    ensures FullWindowSeen(MisdispatchTimes(rows + [row], cls), MISDISPATCH_HOLD_WINDOW_S, MISDISPATCH_HOLD_THRESHOLD)
       <==> FullWindowSeen(MisdispatchTimes(rows, cls), MISDISPATCH_HOLD_WINDOW_S, MISDISPATCH_HOLD_THRESHOLD)
            || (row.predicted == cls && RecentMisdispatches(rows + [row], cls, row.at) >= MISDISPATCH_HOLD_THRESHOLD)
  {
    assert (rows + [row])[..|rows|] == rows;
    if row.predicted == cls {
      OneMoreEntry(MisdispatchTimes(rows, cls), row.at, MISDISPATCH_HOLD_WINDOW_S, MISDISPATCH_HOLD_THRESHOLD);
    } else {
      assert MisdispatchTimes(rows + [row], cls) == MisdispatchTimes(rows, cls);
    }
  }

  lemma {:induction false} LogStep(policy: Policy, db: Db, event: Event)
    ensures Step(policy, db, event).misdispatches
         == if event.Misdispatched? then db.misdispatches + [Misdispatch(event.predicted, event.actual, event.now)]
            else db.misdispatches
  {
  }

  lemma {:induction false} FillIsSeen(policy: Policy, db: Db, event: Event, cls: string)
    ensures DaySeen(Step(policy, db, event), cls) <==> DaySeen(db, cls) || FillsOn(db, event, cls)
  {
    LogStep(policy, db, event);
    if event.Misdispatched? {
      RowIsSeen(db.misdispatches, Misdispatch(event.predicted, event.actual, event.now), cls);
    }
  }

  lemma {:induction false} FilledIsEntrySeen(run: Run, n: nat, cls: string)
    requires n <= |run.events| && run.start.misdispatches == []
    ensures FilledBy(run, n, cls) <==> DaySeen(After(run, n), cls)
  {
    if n > 0 {
      FilledIsEntrySeen(run, n - 1, cls);
      FillIsSeen(run.policy, After(run, n - 1), run.events[n - 1], cls);
    }
  }

  lemma {:induction false} AFillIsRemembered(run: Run, k: nat, n: nat, cls: string)
    requires k < n <= |run.events| && FillsWindow(run, k, cls)
    ensures FilledBy(run, n, cls)
  {
    if k < n - 1 {
      AFillIsRemembered(run, k, n - 1, cls);
    }
  }

  lemma {:induction false} AFillFindsAHold(run: Run, n: nat, cls: string) returns (k: nat)
    requires n <= |run.events| && FilledBy(run, n, cls) && HoldOf(run.start.holds, cls) == Hold(false, None)
    ensures k < n && StartsHold(run, k, cls)
  {
    if FilledBy(run, n - 1, cls) {
      k := AFillFindsAHold(run, n - 1, cls);
    } else if StartsHold(run, n - 1, cls) {
      k := n - 1;
    } else {
      HoldIsItsCause(run, n - 1, cls);
      k := Cause(run, n - 1, cls).value;
      CauseIsTheKeptStart(run, n - 1, cls, k);
    }
  }

  /**
   Under a clock that does not run backwards, a class is ever put on hold exactly when some 24
   hours hold three of its misdispatches.
   */
  lemma {:induction false} HeldIffWindowFull(run: Run, cls: string)
    requires run.start.misdispatches == [] && HoldOf(run.start.holds, cls) == Hold(false, None)
    requires Sorted(Misdispatches(run, |run.events|, cls))
    ensures (exists k :: 0 <= k < |run.events| && StartsHold(run, k, cls))
       <==> (exists lo :: WindowCount(Misdispatches(run, |run.events|, cls), lo, MISDISPATCH_HOLD_WINDOW_S) >= MISDISPATCH_HOLD_THRESHOLD)
  {
    var n := |run.events|;
    if k :| 0 <= k < n && StartsHold(run, k, cls) {
      AFillIsRemembered(run, k, n, cls);
    } else if FilledBy(run, n, cls) {
      var k := AFillFindsAHold(run, n, cls);
    }
    FilledIsEntrySeen(run, n, cls);
    ThresholdSeenIffWindowFull(Misdispatches(run, n, cls), MISDISPATCH_HOLD_WINDOW_S, MISDISPATCH_HOLD_THRESHOLD);
  }

  /** The misdispatches among the first n events, as they are logged. */
  function MisdispatchRows(events: seq<Event>, n: nat): seq<Misdispatch>
    requires n <= |events|
  {
    if n == 0 then []
    else
      var event := events[n - 1];
      MisdispatchRows(events, n - 1)
      + (if event.Misdispatched? then [Misdispatch(event.predicted, event.actual, event.now)] else [])
  }

  lemma {:induction false} MisdispatchesAreLogged(run: Run, n: nat)
    requires n <= |run.events| && run.start.misdispatches == []
    ensures After(run, n).misdispatches == MisdispatchRows(run.events, n)
  {
    if n > 0 {
      MisdispatchesAreLogged(run, n - 1);
      LogStep(run.policy, After(run, n - 1), run.events[n - 1]);
    }
  }

  predicate OnlyAboutHolds(event: Event) {
    event.Misdispatched? || event.ClearHold?
  }

  lemma {:induction false} HoldEventTouchesNoTrust(policy: Policy, db: Db, event: Event)
    requires OnlyAboutHolds(event)
    ensures var after := Step(policy, db, event);
            after.trust == db.trust && after.diagnoser == db.diagnoser && after.action == db.action
  {
  }

  /** Over any stretch of misdispatches and clears no trust state, streak or history moves. */
  lemma {:induction false} HoldsTouchNoTrust(run: Run, m: nat, n: nat)
    requires m <= n <= |run.events| && forall k :: m <= k < n ==> OnlyAboutHolds(run.events[k])
    ensures After(run, n).trust == After(run, m).trust
    ensures After(run, n).diagnoser == After(run, m).diagnoser && After(run, n).action == After(run, m).action
  {
    if m < n {
      HoldsTouchNoTrust(run, m, n - 1);
      HoldEventTouchesNoTrust(run.policy, After(run, n - 1), run.events[n - 1]);
    }
  }

  // --- dimension A across a trip ---

  lemma {:induction false} TripOnTrust(policy: Policy, db: Db, cls: string)
    ensures var was := TrustOf(db.trust, cls);
            TrustOf(Tripped(policy, db).trust, cls) == if was.state.CanAct? then TrustRow(ReportOnly, 0) else was
  {
  }

  lemma {:induction false} TrustStep(policy: Policy, db: Db, event: Event, cls: string)
    requires cls in policy.promotable
    ensures var was := TrustOf(db.trust, cls);
            TrustOf(Step(policy, db, event).trust, cls)
            == if TripsOn(db, event) && was.state.CanAct? then TrustRow(ReportOnly, 0)
               else if event.TrustOutcome? && event.cls == cls then TrustMoved(was, event.correct)
               else was
  {
    match event
    case Failure(now) => TripOnTrust(policy, db.(failures := db.failures + [now]), cls);
    case TrustOutcome(c, correct) =>
    case _ => assert Step(policy, db, event).trust == db.trust;
  }

  lemma {:induction false} UnpolicedStep(policy: Policy, db: Db, event: Event, cls: string)
    requires cls !in policy.promotable
    ensures var was := TrustOf(db.trust, cls);
            TrustOf(Step(policy, db, event).trust, cls)
            == if TripsOn(db, event) && was.state.CanAct? then TrustRow(ReportOnly, 0) else was
  {
    match event
    case Failure(now) => TripOnTrust(policy, db.(failures := db.failures + [now]), cls);
    case TrustOutcome(c, correct) =>
    case _ => assert Step(policy, db, event).trust == db.trust;
  }

  /** A class without a promotion policy never moves in dimension A, whatever outcomes are reported for it. */
  lemma {:induction false} NoPolicyNoTrust(run: Run, n: nat, cls: string)
    requires n <= |run.events| && cls !in run.policy.promotable && !TrustOf(run.start.trust, cls).state.CanAct?
    ensures TrustOf(After(run, n).trust, cls) == TrustOf(run.start.trust, cls)
  {
    if n > 0 {
      NoPolicyNoTrust(run, n - 1, cls);
      UnpolicedStep(run.policy, After(run, n - 1), run.events[n - 1], cls);
    }
  }

  /** A row that only outcomes and trips have written: able to act exactly from a streak of five. */
  predicate Earned(row: TrustRow) {
    !row.state.Demoted? && (row.state.CanAct? <==> row.streak >= TRUST_PROMOTION_STREAK)
  }

  lemma {:induction false} TrustStaysEarned(run: Run, n: nat, cls: string)
    requires n <= |run.events| && cls in run.policy.promotable && Earned(TrustOf(run.start.trust, cls))
    ensures Earned(TrustOf(After(run, n).trust, cls))
  {
    if n > 0 {
      TrustStaysEarned(run, n - 1, cls);
      TrustStep(run.policy, After(run, n - 1), run.events[n - 1], cls);
    }
  }

  /** Correct outcomes of a class in dimension A that end the first n events. */
  function CorrectTail(events: seq<Event>, n: nat, cls: string): nat
    requires n <= |events|
  {
    if n == 0 then 0
    else if events[n - 1].TrustOutcome? && events[n - 1].cls == cls then
      (if events[n - 1].correct then CorrectTail(events, n - 1, cls) + 1 else 0)
    else CorrectTail(events, n - 1, cls)
  }

  lemma {:induction false} StreakIsAtMostTheTail(run: Run, n: nat, cls: string)
    requires n <= |run.events| && cls in run.policy.promotable
    ensures TrustOf(After(run, n).trust, cls).streak <= TrustOf(run.start.trust, cls).streak + CorrectTail(run.events, n, cls)
  {
    if n > 0 {
      StreakIsAtMostTheTail(run, n - 1, cls);
      TrustStep(run.policy, After(run, n - 1), run.events[n - 1], cls);
    }
  }

  lemma {:induction false} StreakGrows(run: Run, n: nat, cls: string)
    requires n <= |run.events| && cls in run.policy.promotable
    requires forall i :: 0 <= i < |run.events| ==> run.events[i] == TrustOutcome(cls, true)
    ensures TrustOf(After(run, n).trust, cls).streak == TrustOf(run.start.trust, cls).streak + n
    ensures CorrectTail(run.events, n, cls) == n
  {
    if n > 0 {
      StreakGrows(run, n - 1, cls);
      TrustStep(run.policy, After(run, n - 1), run.events[n - 1], cls);
    }
  }

  /** Whatever happens from this database on, the class acts only after five correct outcomes in a row from here. */
  ghost predicate MustEarnFiveFrom(policy: Policy, db: Db, cls: string) {
    forall events: seq<Event> ::
      TrustOf(After(Run(policy, db, events), |events|).trust, cls).state.CanAct? ==>
        CorrectTail(events, |events|, cls) >= TRUST_PROMOTION_STREAK
  }

  /**
   A trip resets a class that can act, but leaves a streak of one to four standing.
   So a trip makes a class earn its five outcomes again exactly when its streak was
   zero or it could act.
   */
  lemma {:induction false} TripLeavesAPartialStreak(policy: Policy, db: Db, cls: string)
    requires cls in policy.promotable && Earned(TrustOf(db.trust, cls))
    ensures MustEarnFiveFrom(policy, Tripped(policy, db), cls)
       <==> TrustOf(db.trust, cls).streak == 0 || TrustOf(db.trust, cls).state.CanAct?
  {
    TripIsGlobal(policy, db);
    var tripped := Tripped(policy, db);
    var kept := TrustOf(tripped.trust, cls).streak;
    if kept == 0 {
      forall events: seq<Event>
        | TrustOf(After(Run(policy, tripped, events), |events|).trust, cls).state.CanAct?
        ensures CorrectTail(events, |events|, cls) >= TRUST_PROMOTION_STREAK
      {
        TrustStaysEarned(Run(policy, tripped, events), |events|, cls);
        StreakIsAtMostTheTail(Run(policy, tripped, events), |events|, cls);
      }
    } else {
      var events := seq(TRUST_PROMOTION_STREAK - kept, i => TrustOutcome(cls, true));
      TrustStaysEarned(Run(policy, tripped, events), |events|, cls);
      StreakGrows(Run(policy, tripped, events), |events|, cls);
    }
  }
}
