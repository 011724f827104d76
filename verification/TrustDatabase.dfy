/**
 The safety state of the trust database: dimension A (trust_engine.py), the two LLM
 dimensions B and C, the circuit breaker and the misdispatch safety holds. Times are
 whole seconds, as SQLite stores them.
 */
module TrustDatabase {
  import opened Options
  import opened TimeWindows
  import opened TrustLadder

  const FAILURE_WINDOW_S := 5 * 60
  const FAILURE_THRESHOLD := 3
  const MISDISPATCH_HOLD_THRESHOLD := 3
  const MISDISPATCH_HOLD_WINDOW_S := 24 * 60 * 60
  const TRUST_PROMOTION_STREAK := 5

  /** Which classes a trip resets in B and C, and which have a promotion policy in A (the others are report-only). */
  datatype Policy = Policy(classes: seq<string>, promotable: set<string>)

  datatype Trust = ReportOnly | CanAct | Demoted

  datatype TrustRow = TrustRow(state: Trust, streak: nat)

  datatype Misdispatch = Misdispatch(predicted: string, actual: string, at: int)

  datatype Hold = Hold(active: bool, since: Option<int>)

  datatype Db = Db(
    diagnoser: Ledger, action: Ledger, trust: map<string, TrustRow>,
    failures: seq<int>, misdispatches: seq<Misdispatch>, holds: map<string, Hold>)

  const EMPTY := Db(EMPTY_LEDGER, EMPTY_LEDGER, map[], [], [], map[])

  function TrustOf(trust: map<string, TrustRow>, cls: string): TrustRow {
    if cls in trust then trust[cls] else TrustRow(ReportOnly, 0)
  }

  function HoldOf(holds: map<string, Hold>, cls: string): Hold {
    if cls in holds then holds[cls] else Hold(false, None)
  }

  // --- dimension A ---

  function TrustMoved(before: TrustRow, correct: bool): TrustRow {
    if before.state.CanAct? && !correct then TrustRow(ReportOnly, 0)
    else if correct then
      TrustRow(if before.streak + 1 >= TRUST_PROMOTION_STREAK then CanAct else before.state, before.streak + 1)
    else TrustRow(before.state, 0)
  }

  // --- the breaker ---

  /** A failure recorded now makes three in the last five minutes. */
  predicate Trips(failures: seq<int>, now: int) {
    CountSince(failures + [now], now - FAILURE_WINDOW_S) >= FAILURE_THRESHOLD
  }

  function AllDemoted(trust: map<string, TrustRow>): map<string, TrustRow> {
    map cls | cls in trust :: if trust[cls].state.CanAct? then TrustRow(ReportOnly, 0) else trust[cls]
  }

  /** The first n classes reset, in order. */
  function ResetClasses(ledger: Ledger, classes: seq<string>, n: nat): Ledger
    requires n <= |classes|
  {
    if n == 0 then ledger else Reset(ResetClasses(ledger, classes, n - 1), classes[n - 1])
  }

  function AllReleased(holds: map<string, Hold>): map<string, Hold> {
    map cls | cls in holds :: if holds[cls].active then Hold(false, None) else holds[cls]
  }

  // --- misdispatch holds ---

  function MisdispatchTimes(rows: seq<Misdispatch>, predicted: string): seq<int> {
    if rows == [] then []
    else
      var row := rows[|rows| - 1];
      MisdispatchTimes(rows[..|rows| - 1], predicted) + (if row.predicted == predicted then [row.at] else [])
  }

  function RecentMisdispatches(rows: seq<Misdispatch>, predicted: string, now: int): nat {
    CountSince(MisdispatchTimes(rows, predicted), now - MISDISPATCH_HOLD_WINDOW_S)
  }

  function WithHold(holds: map<string, Hold>, cls: string, active: bool, now: int): map<string, Hold> {
    var existing := HoldOf(holds, cls);
    holds[cls := Hold(active, if !active then None else if existing.active then existing.since else Some(now))]
  }

  // --- one event ---

  datatype Event =
    | DiagnoserOutcome(cls: string, correct: bool)
    | ActionOutcome(cls: string, correct: bool)
    | TrustOutcome(cls: string, correct: bool)
    | Failure(now: int)
    | Misdispatched(predicted: string, actual: string, now: int)
    | ClearHold(cls: string)

  function Tripped(policy: Policy, db: Db): Db {
    var n := |policy.classes|;
    db.(diagnoser := ResetClasses(db.diagnoser, policy.classes, n), action := ResetClasses(db.action, policy.classes, n),
        trust := AllDemoted(db.trust), holds := AllReleased(db.holds))
  }

  function Step(policy: Policy, db: Db, event: Event): Db {
    match event
    case DiagnoserOutcome(cls, correct) => db.(diagnoser := Recorded(db.diagnoser, cls, correct))
    case ActionOutcome(cls, correct) => db.(action := Recorded(db.action, cls, correct))
    case TrustOutcome(cls, correct) =>
      if cls in policy.promotable then db.(trust := db.trust[cls := TrustMoved(TrustOf(db.trust, cls), correct)]) else db
    case Failure(now) =>
      var logged := db.(failures := db.failures + [now]);
      if Trips(db.failures, now) then Tripped(policy, logged) else logged
    case Misdispatched(predicted, actual, now) =>
      var rows := db.misdispatches + [Misdispatch(predicted, actual, now)];
      var logged := db.(misdispatches := rows);
      if RecentMisdispatches(rows, predicted, now) >= MISDISPATCH_HOLD_THRESHOLD
      then logged.(holds := WithHold(db.holds, predicted, true, now))
      else logged
    case ClearHold(cls) => db.(holds := WithHold(db.holds, cls, false, 0))
  }

  datatype Run = Run(policy: Policy, start: Db, events: seq<Event>)

  /** The database after the first n events of a run. */
  function After(run: Run, n: nat): Db
    requires n <= |run.events|
  {
    if n == 0 then run.start else Step(run.policy, After(run, n - 1), run.events[n - 1])
  }

  class TrustStore {
    const policy: Policy
    const diagnoser: LadderTable
    const action: LadderTable
    var trust: map<string, TrustRow>
    var failures: seq<int>
    var misdispatches: seq<Misdispatch>
    var holds: map<string, Hold>

    ghost predicate Valid() {
      diagnoser != action
    }

    ghost function Contents(): Db
      reads this, diagnoser, action
    {
      Db(diagnoser.Contents(), action.Contents(), trust, failures, misdispatches, holds)
    }

    constructor (policy: Policy)
      ensures Valid() && this.policy == policy && Contents() == EMPTY && fresh(diagnoser) && fresh(action)
    {
      this.policy := policy;
      diagnoser := new LadderTable();
      action := new LadderTable();
      trust, failures, misdispatches, holds := map[], [], [], map[];
    }

    /** Dimension A. A class without a promotion policy is refused and nothing changes. */
    method RecordOutcome(cls: string, correct: bool) returns (refused: bool)
      modifies this`trust
      ensures refused == (cls !in policy.promotable)
      ensures refused ==> Contents() == old(Contents())
      ensures Contents() == Step(policy, old(Contents()), TrustOutcome(cls, correct))
    {
      if cls !in policy.promotable {
        return true;
      }
      var before := if cls in trust then trust[cls] else TrustRow(ReportOnly, 0);
      var state, streak := before.state, 0;
      if before.state.CanAct? && !correct {
        state := ReportOnly;
      } else if correct {
        streak := before.streak + 1;
        if streak >= TRUST_PROMOTION_STREAK {
          state := CanAct;
        }
      }
      trust := trust[cls := TrustRow(state, streak)];
      return false;
    }

    method SetSafetyHold(cls: string, active: bool, now: int)
      modifies this`holds
      ensures holds == WithHold(old(holds), cls, active, now)
    {
      var existing := HoldOf(holds, cls);
      var since: Option<int> := None;
      if active && existing.active {
        since := existing.since;
      } else if active {
        since := Some(now);
      }
      holds := holds[cls := Hold(active, since)];
    }

    method ClearAllSafetyHolds(now: int)
      modifies this`holds
      ensures holds == AllReleased(old(holds))
    {
      ghost var start := holds;
      var active := set cls | cls in holds && holds[cls].active;
      while active != {}
        invariant holds.Keys == start.Keys
        invariant forall cls :: cls in active ==> cls in holds && holds[cls] == start[cls] && start[cls].active
        invariant forall cls :: cls in holds && cls !in active ==>
                    holds[cls] == if start[cls].active then Hold(false, None) else start[cls]
        decreases active
      {
        var cls :| cls in active;
        SetSafetyHold(cls, false, now);
        active := active - {cls};
      }
    }

    /** Returns whether this misdispatch started a hold. */
    method RecordMisdispatch(predicted: string, actual: string, now: int) returns (recent: nat, holdTriggered: bool)
      modifies this`misdispatches, this`holds
      ensures Contents() == Step(policy, old(Contents()), Misdispatched(predicted, actual, now))
      ensures recent == RecentMisdispatches(misdispatches, predicted, now)
      ensures holdTriggered <==> !HoldOf(old(holds), predicted).active && HoldOf(holds, predicted).active
    {
      misdispatches := misdispatches + [Misdispatch(predicted, actual, now)];
      recent := CountSince(MisdispatchTimes(misdispatches, predicted), now - MISDISPATCH_HOLD_WINDOW_S);
      holdTriggered := false;
      if recent >= MISDISPATCH_HOLD_THRESHOLD {
        holdTriggered := !HoldOf(holds, predicted).active;
        SetSafetyHold(predicted, true, now);
      }
    }

    method ClearSafetyHold(cls: string, now: int)
      modifies this`holds
      ensures Contents() == Step(policy, old(Contents()), ClearHold(cls))
    {
      SetSafetyHold(cls, false, now);
    }

    /** Logs the failure and checks the breaker in the same call. */
    method RecordFailure(now: int) returns (tripped: bool)
      requires Valid()
      modifies this, diagnoser, action
      ensures tripped == Trips(old(failures), now)
      ensures Contents() == Step(policy, old(Contents()), Failure(now))
    {
      failures := failures + [now];
      tripped := CheckCircuitBreaker(now);
    }

    method CheckCircuitBreaker(now: int) returns (tripped: bool)
      requires Valid()
      modifies this`trust, this`holds, diagnoser, action
      ensures tripped == (CountSince(failures, now - FAILURE_WINDOW_S) >= FAILURE_THRESHOLD)
      ensures Contents() == if tripped then Tripped(policy, old(Contents())) else old(Contents())
    {
      if CountSince(failures, now - FAILURE_WINDOW_S) < FAILURE_THRESHOLD {
        return false;
      }
      DemoteAll();
      for i := 0 to |policy.classes|
        invariant trust == AllDemoted(old(trust)) && holds == old(holds)
        invariant diagnoser.Contents() == ResetClasses(old(diagnoser.Contents()), policy.classes, i)
        invariant action.Contents() == ResetClasses(old(action.Contents()), policy.classes, i)
      {
        diagnoser.ResetToSafeDefault(policy.classes[i]);
        action.ResetToSafeDefault(policy.classes[i]);
      }
      ClearAllSafetyHolds(now);
      return true;
    }

    method DemoteAll()
      modifies this`trust
      ensures trust == AllDemoted(old(trust))
    {
      ghost var start := trust;
      var rest := trust.Keys;
      while rest != {}
        invariant rest <= trust.Keys == start.Keys
        invariant forall cls :: cls in trust ==> trust[cls] == if cls in rest then start[cls] else AllDemoted(start)[cls]
        decreases rest
      {
        var cls :| cls in rest;
        if trust[cls].state.CanAct? {
          trust := trust[cls := TrustRow(ReportOnly, 0)];
        }
        rest := rest - {cls};
      }
    }
  }
}
