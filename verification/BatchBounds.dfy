/**
 How much a batch plan can do over its whole life: attempts are bounded, progress is
 exactly what was recorded, and a class that was given up is left alone.
 */
module BatchBounds {
  import opened ShuffledPlan
  import opened BatchRunner

  /** Attempts in chunk i that did not stop the batch. */
  function Ran(attempts: seq<Attempt>, i: nat): nat {
    if attempts == [] then 0
    else
      var last := attempts[|attempts| - 1];
      Ran(attempts[..|attempts| - 1], i) + (if last.chunk == i && !last.outcome.HardStop? then 1 else 0)
  }

  /** Episodes recorded in chunk i. */
  function RecordedIn(attempts: seq<Attempt>, i: nat): nat {
    if attempts == [] then 0
    else
      var last := attempts[|attempts| - 1];
      RecordedIn(attempts[..|attempts| - 1], i) + (if last == Attempt(i, Recorded) then 1 else 0)
  }

  /** Hard stops that fell in chunk i. */
  function HardStopsIn(attempts: seq<Attempt>, i: nat): nat {
    if attempts == [] then 0
    else
      var last := attempts[|attempts| - 1];
      HardStopsIn(attempts[..|attempts| - 1], i) + (if last == Attempt(i, HardStop) then 1 else 0)
  }

  function HardStops(attempts: seq<Attempt>): nat {
    if attempts == [] then 0
    else HardStops(attempts[..|attempts| - 1]) + (if attempts[|attempts| - 1].outcome.HardStop? then 1 else 0)
  }

  lemma {:induction false} SomeOfTheStops(attempts: seq<Attempt>, i: nat)
    ensures HardStopsIn(attempts, i) <= HardStops(attempts)
  {
    if attempts != [] {
      SomeOfTheStops(attempts[..|attempts| - 1], i);
    }
  }

  lemma {:induction false} OneMoreAttempt(attempts: seq<Attempt>, attempt: Attempt, i: nat)
    ensures Ran(attempts + [attempt], i)
         == Ran(attempts, i) + (if attempt.chunk == i && !attempt.outcome.HardStop? then 1 else 0)
    ensures RecordedIn(attempts + [attempt], i) == RecordedIn(attempts, i) + (if attempt == Attempt(i, Recorded) then 1 else 0)
    ensures HardStopsIn(attempts + [attempt], i) == HardStopsIn(attempts, i) + (if attempt == Attempt(i, HardStop) then 1 else 0)
    ensures HardStops(attempts + [attempt]) == HardStops(attempts) + (if attempt.outcome.HardStop? then 1 else 0)
  {
    assert (attempts + [attempt])[..|attempts|] == attempts;
  }

  /** Attempts that chunk i can still make in this session without stopping the batch. */
  ghost function Slack(plan: seq<Chunk>, s: State, i: nat): int
    requires i < |plan| == |s.completed|
  {
    if Closed(plan, s, i) then 0
    else MAX_CONSECUTIVE_REAL_FAILURES * (plan[i].target - s.completed[i]) - (if s.idx == i then s.failures else 0)
  }

  /** Attempts of chunk i made and still possible, less the two that each hard stop in it allows for. */
  ghost function Charge(plan: seq<Chunk>, s: State, i: nat): int
    requires i < |plan| == |s.completed|
  {
    Ran(s.attempts, i) + Slack(plan, s, i) - 2 * HardStopsIn(s.attempts, i)
  }

  /** What a stretch of execution from s to t does to chunk i. */
  ghost predicate Accounted(plan: seq<Chunk>, s: State, t: State, i: nat)
    requires i < |plan| == |s.completed| == |t.completed|
  {
    && s.completed[i] <= t.completed[i] && (s.completed[i] <= plan[i].target ==> t.completed[i] <= plan[i].target)
    && Charge(plan, t, i) <= Charge(plan, s, i)
    && s.completed[i] - RecordedIn(s.attempts, i) <= t.completed[i] - RecordedIn(t.attempts, i)
    && (plan[i].cls !in t.gaveUp ==> s.completed[i] - RecordedIn(s.attempts, i) == t.completed[i] - RecordedIn(t.attempts, i))
  }

  /** Between s and t the log only grows, classes stay given up, and none given up before is attempted. */
  ghost predicate Follows(plan: seq<Chunk>, s: State, t: State) {
    && s.attempts <= t.attempts && s.gaveUp.Keys <= t.gaveUp.Keys
    && forall k :: |s.attempts| <= k < |t.attempts| ==>
         t.attempts[k].chunk < |plan| && plan[t.attempts[k].chunk].cls !in s.gaveUp
  }

  ghost predicate Leads(plan: seq<Chunk>, s: State, t: State, i: nat) {
    && |s.completed| == |t.completed| == |plan|
    && Follows(plan, s, t)
    && (i < |plan| ==> Accounted(plan, s, t, i))
  }

  lemma {:induction false} LeadsOn(plan: seq<Chunk>, s: State, t: State, u: State, i: nat)
    requires Leads(plan, s, t, i) && Leads(plan, t, u, i)
    ensures Leads(plan, s, u, i)
  {
    forall k | |s.attempts| <= k < |u.attempts|
      ensures u.attempts[k].chunk < |plan| && plan[u.attempts[k].chunk].cls !in s.gaveUp
    {
      if k < |t.attempts| {
        assert u.attempts[k] == t.attempts[k];
      }
    }
  }

  lemma {:induction false} PassingLeads(plan: seq<Chunk>, s: State, i: nat)
    requires Fits(plan, s) && s.idx < |plan| && Closed(plan, s, s.idx)
    ensures s.completed[s.idx] >= plan[s.idx].target ==> Leads(plan, s, s.(idx := s.idx + 1), i)
    ensures s.completed[s.idx] < plan[s.idx].target ==> Leads(plan, s, Skipped(plan, s), i)
  {
  }

  /** A resumed session takes up where the last one ended. */
  lemma {:induction false} ResumeLeads(plan: seq<Chunk>, s: State, i: nat)
    requires |s.completed| == |plan| && s.failures == 0
    ensures Leads(plan, s, Resume(s), i)
  {
  }

  /** An attempt uses up what it adds; the failures that a resumed hard stop forgets are at most the two it allows for. */
  lemma {:induction false} AttemptLeads(plan: seq<Chunk>, s: State, outcome: Outcome, i: nat)
    requires Fits(plan, s) && s.idx < |plan| && !Closed(plan, s, s.idx)
    ensures var t := AfterAttempt(plan, s, outcome);
            Leads(plan, s, if outcome.HardStop? then Resume(t) else t, i)
  {
    if i == s.idx {
      AttemptHere(plan, s, outcome);
    } else if i < |plan| {
      AttemptElsewhere(plan, s, outcome, i);
    }
  }

  lemma {:induction false} AttemptHere(plan: seq<Chunk>, s: State, outcome: Outcome)
    requires Fits(plan, s) && s.idx < |plan| && !Closed(plan, s, s.idx)
    ensures var t := AfterAttempt(plan, s, outcome);
            Accounted(plan, s, if outcome.HardStop? then Resume(t) else t, s.idx)
  {
    OneMoreAttempt(s.attempts, Attempt(s.idx, outcome), s.idx);
    var t := AfterAttempt(plan, s, outcome);
    assert Slack(plan, s, s.idx) == MAX_CONSECUTIVE_REAL_FAILURES * (plan[s.idx].target - s.completed[s.idx]) - s.failures;
    match outcome
    case HardStop =>
      assert Slack(plan, Resume(t), s.idx) == Slack(plan, s, s.idx) + s.failures;
    case NothingRecorded =>
      assert t.completed == s.completed && Slack(plan, t, s.idx) <= Slack(plan, s, s.idx) - 1;
    case Recorded =>
      assert t.completed[s.idx] == s.completed[s.idx] + 1 && t.gaveUp == s.gaveUp;
      assert Slack(plan, t, s.idx) <= Slack(plan, s, s.idx) - 1;
  }

  lemma {:induction false} AttemptElsewhere(plan: seq<Chunk>, s: State, outcome: Outcome, i: nat)
    requires Fits(plan, s) && s.idx < |plan| && !Closed(plan, s, s.idx) && i < |plan| && i != s.idx
    ensures var t := AfterAttempt(plan, s, outcome);
            Accounted(plan, s, if outcome.HardStop? then Resume(t) else t, i)
  {
    OneMoreAttempt(s.attempts, Attempt(s.idx, outcome), i);
    var t := AfterAttempt(plan, s, outcome);
    assert t.completed[i] == s.completed[i];
    assert t.idx == i ==> t.failures == 0;
    assert Closed(plan, s, i) ==> Closed(plan, t, i);
    assert Slack(plan, s, i) >= 0 && (Slack(plan, t, i) == 0 || Slack(plan, t, i) == Slack(plan, s, i));
  }

  /** t is where a session or a whole life ended that was at b before a last hard stop, if there was one. */
  ghost predicate EndsAfter(plan: seq<Chunk>, b: State, t: State, exit: Exit) {
    && Fits(plan, b)
    && (exit.Stopped? ==> b.idx < |plan| && !Closed(plan, b, b.idx) && t == Logged(b, HardStop))
    && (!exit.Stopped? ==> t == b && b.failures == 0)
  }

  lemma {:induction false} SessionLeads(plan: seq<Chunk>, s: State, outcomes: nat -> Outcome, pause: nat -> bool, i: nat)
    returns (b: State)
    requires Fits(plan, s)
    ensures var (t, e) := Session(plan, s, outcomes, pause); EndsAfter(plan, b, t, e)
    ensures Leads(plan, s, b, i) && HardStops(b.attempts) == HardStops(s.attempts)
    decreases |plan| - s.idx,
              if s.idx < |plan| then plan[s.idx].target - s.completed[s.idx] else 0,
              MAX_CONSECUTIVE_REAL_FAILURES - s.failures
  {
    b := s;
    if s.idx < |plan| {
      if Closed(plan, s, s.idx) {
        PassOver(plan, s, outcomes, pause);
        PassingLeads(plan, s, i);
        var next := if s.completed[s.idx] >= plan[s.idx].target then s.(idx := s.idx + 1) else Skipped(plan, s);
        b := SessionLeads(plan, next, outcomes, pause, i);
        LeadsOn(plan, s, next, b, i);
      } else {
        var outcome := outcomes(|s.attempts|);
        AttemptStep(plan, s, outcomes, pause);
        if !outcome.HardStop? {
          var next := AfterAttempt(plan, s, outcome);
          AttemptLeads(plan, s, outcome, i);
          AttemptIsNoStop(plan, s, outcome);
          if outcome.Recorded? && pause(|s.attempts|) {
            b := next;
          } else {
            b := SessionLeads(plan, next, outcomes, pause, i);
            LeadsOn(plan, s, next, b, i);
          }
        }
      }
    }
  }

  lemma {:induction false} AttemptIsNoStop(plan: seq<Chunk>, s: State, outcome: Outcome)
    requires s.idx < |plan| == |s.completed| && !outcome.HardStop?
    ensures HardStops(AfterAttempt(plan, s, outcome).attempts) == HardStops(s.attempts)
  {
    OneMoreAttempt(s.attempts, Attempt(s.idx, outcome), s.idx);
  }

  /** Resuming goes on from where a session ended, and counts the hard stop that ended it. */
  lemma {:induction false} ResumedLeads(plan: seq<Chunk>, b: State, t: State, exit: Exit, i: nat)
    requires EndsAfter(plan, b, t, exit)
    ensures Leads(plan, b, Resume(t), i)
    ensures HardStops(t.attempts) == HardStops(b.attempts) + (if exit.Stopped? then 1 else 0)
  {
    if exit.Stopped? {
      AttemptLeads(plan, b, HardStop, i);
      OneMoreAttempt(b.attempts, Attempt(b.idx, HardStop), i);
    } else {
      ResumeLeads(plan, b, i);
    }
  }

  lemma {:induction false} LifeLeads(plan: seq<Chunk>, s: State, outcomes: nat -> Outcome, pause: nat -> bool,
      stops: nat, i: nat)
    returns (b: State)
    requires Fits(plan, s)
    ensures var (t, e) := Drive(plan, s, outcomes, pause, stops); EndsAfter(plan, b, t, e)
    ensures Leads(plan, s, b, i) && HardStops(b.attempts) <= HardStops(s.attempts) + stops
    decreases stops, Remaining(plan, s.completed, |plan|)
  {
    b := SessionLeads(plan, s, outcomes, pause, i);
    SessionShrinks(plan, s, outcomes, pause);
    var (t, e) := Session(plan, s, outcomes, pause);
    if e.Paused? || (e.Stopped? && stops > 0) {
      var rest := if e.Paused? then stops else stops - 1;
      ResumedLeads(plan, b, t, e, i);
      var last := LifeLeads(plan, Resume(t), outcomes, pause, rest, i);
      LeadsOn(plan, s, b, Resume(t), i);
      LeadsOn(plan, s, Resume(t), last, i);
      b := last;
    }
  }

  // --- the bounds of a plan run from its start ---

  /** The attempts before a final hard stop that nothing resumed. */
  function Resumed(attempts: seq<Attempt>, exit: Exit): seq<Attempt> {
    if exit.Stopped? && attempts != [] then attempts[..|attempts| - 1] else attempts
  }

  lemma {:induction false} EndIsResumed(plan: seq<Chunk>, b: State, t: State, exit: Exit, i: nat)
    requires EndsAfter(plan, b, t, exit)
    ensures Resumed(t.attempts, exit) == b.attempts && Ran(t.attempts, i) == Ran(b.attempts, i)
    ensures RecordedIn(t.attempts, i) == RecordedIn(b.attempts, i)
  {
    if exit.Stopped? {
      OneMoreAttempt(b.attempts, Attempt(b.idx, HardStop), i);
    }
  }

  /**
   A chunk is attempted at most three times per episode it asks for, whatever is paused
   and resumed, plus two for every hard stop in that very chunk that was resumed from.
   */
  lemma {:induction false} AttemptsAreBounded(plan: seq<Chunk>, outcomes: nat -> Outcome, pause: nat -> bool,
      stops: nat, i: nat)
    requires i < |plan|
    ensures var (t, e) := Drive(plan, Start(plan), outcomes, pause, stops);
            var resumed := HardStopsIn(Resumed(t.attempts, e), i);
            resumed <= stops && Ran(t.attempts, i) <= MAX_CONSECUTIVE_REAL_FAILURES * plan[i].target + 2 * resumed
  {
    var (t, e) := Drive(plan, Start(plan), outcomes, pause, stops);
    var b := LifeLeads(plan, Start(plan), outcomes, pause, stops, i);
    EndIsResumed(plan, b, t, e, i);
    SomeOfTheStops(b.attempts, i);
    assert Slack(plan, b, i) >= 0;
  }

  /**
   Progress never exceeds the target and never claims less than what was recorded. It
   is exactly what was recorded unless the class was given up; and in a complete plan
   every chunk of a class that was not given up has recorded its whole target.
   */
  lemma {:induction false} ProgressIsWhatWasRecorded(plan: seq<Chunk>, outcomes: nat -> Outcome, pause: nat -> bool,
      stops: nat, i: nat)
    requires i < |plan|
    ensures var (t, e) := Drive(plan, Start(plan), outcomes, pause, stops);
            && RecordedIn(t.attempts, i) <= t.completed[i] <= plan[i].target
            && (plan[i].cls !in t.gaveUp ==> t.completed[i] == RecordedIn(t.attempts, i))
            && (e.Complete? && plan[i].cls !in t.gaveUp ==> RecordedIn(t.attempts, i) == plan[i].target)
  {
    var (t, e) := Drive(plan, Start(plan), outcomes, pause, stops);
    var b := LifeLeads(plan, Start(plan), outcomes, pause, stops, i);
    EndIsResumed(plan, b, t, e, i);
  }

  /** Once a class is given up, no chunk of it is attempted again, in this session or a later one. */
  lemma {:induction false} GivenUpForGood(plan: seq<Chunk>, s: State, outcomes: nat -> Outcome, pause: nat -> bool,
      stops: nat, k: nat)
    requires Fits(plan, s)
    requires |s.attempts| <= k < |Drive(plan, s, outcomes, pause, stops).0.attempts|
    ensures var t := Drive(plan, s, outcomes, pause, stops).0;
            && s.attempts <= t.attempts && s.gaveUp.Keys <= t.gaveUp.Keys
            && t.attempts[k].chunk < |plan| && plan[t.attempts[k].chunk].cls !in s.gaveUp
  {
    var (t, e) := Drive(plan, s, outcomes, pause, stops);
    var b := LifeLeads(plan, s, outcomes, pause, stops, 0);
    ResumedLeads(plan, b, t, e, 0);
    LeadsOn(plan, s, b, Resume(t), 0);
  }

  // --- the bound is reached ---

  /** Two failures before every hard stop, before every recorded episode, and before the giving up. */
  function Wasteful(target: nat, stops: nat): nat -> Outcome {
    k => if k % 3 < 2 then NothingRecorded
         else if k / 3 < stops then HardStop
         else if k / 3 < stops + target - 1 then Recorded
         else NothingRecorded
  }

  /** A plan of one chunk between two attempts, with nothing lost yet. */
  ghost predicate Fresh(s: State, done: nat) {
    s.idx == 0 && s.failures == 0 && s.gaveUp == map[] && s.completed == [done]
  }

  lemma {:induction false} TwoFailures(plan: seq<Chunk>, s: State, outcomes: nat -> Outcome,
      pause: nat -> bool) returns (t: State)
    requires Fits(plan, s) && s.idx == 0 < |plan| && s.failures == 0 && !Closed(plan, s, 0)
    requires outcomes(|s.attempts|) == outcomes(|s.attempts| + 1) == NothingRecorded
    ensures t == s.(attempts := t.attempts, failures := 2) && |t.attempts| == |s.attempts| + 2
    ensures Ran(t.attempts, 0) == Ran(s.attempts, 0) + 2
    ensures Fits(plan, t) && Session(plan, t, outcomes, pause) == Session(plan, s, outcomes, pause)
  {
    var next := Failure(plan, s);
    AttemptStep(plan, s, outcomes, pause);
    OneMoreAttempt(s.attempts, Attempt(0, NothingRecorded), 0);
    t := Failure(plan, next);
    AttemptStep(plan, next, outcomes, pause);
    OneMoreAttempt(next.attempts, Attempt(0, NothingRecorded), 0);
  }

  /** The life that goes through equal sessions is the same. */
  lemma {:induction false} SameSessionSameLife(plan: seq<Chunk>, s: State, t: State, outcomes: nat -> Outcome,
      pause: nat -> bool, stops: nat)
    requires Fits(plan, s) && Fits(plan, t) && Session(plan, s, outcomes, pause) == Session(plan, t, outcomes, pause)
    ensures Drive(plan, s, outcomes, pause, stops) == Drive(plan, t, outcomes, pause, stops)
  {
  }

  /** Two failures and a hard stop that is resumed from lose nothing but a stop and two attempts. */
  lemma {:induction false} StopBlock(cls: string, target: nat, s: State, done: nat, outcomes: nat -> Outcome,
      pause: nat -> bool, stops: nat)
    returns (u: State)
    requires Fresh(s, done) && done < target && stops > 0
    requires outcomes(|s.attempts|) == outcomes(|s.attempts| + 1) == NothingRecorded && outcomes(|s.attempts| + 2) == HardStop
    ensures Fits([Chunk(cls, target)], s) && Fits([Chunk(cls, target)], u)
    ensures Fresh(u, done) && |u.attempts| == |s.attempts| + 3 && Ran(u.attempts, 0) == Ran(s.attempts, 0) + 2
    ensures Drive([Chunk(cls, target)], s, outcomes, pause, stops) == Drive([Chunk(cls, target)], u, outcomes, pause, stops - 1)
  {
    var plan := [Chunk(cls, target)];
    var t := TwoFailures(plan, s, outcomes, pause);
    AttemptStep(plan, t, outcomes, pause);
    OneMoreAttempt(t.attempts, Attempt(0, HardStop), 0);
    u := Resume(Logged(t, HardStop));
    assert Session(plan, s, outcomes, pause) == (Logged(t, HardStop), Stopped);
  }

  /** Two failures and a recorded episode take three attempts for it, paused or not. */
  lemma {:induction false} RecordBlock(cls: string, target: nat, s: State, done: nat, outcomes: nat -> Outcome,
      pause: nat -> bool, stops: nat)
    returns (u: State)
    requires Fresh(s, done) && done < target
    requires outcomes(|s.attempts|) == outcomes(|s.attempts| + 1) == NothingRecorded && outcomes(|s.attempts| + 2) == Recorded
    ensures Fits([Chunk(cls, target)], s) && Fits([Chunk(cls, target)], u)
    ensures Fresh(u, done + 1) && |u.attempts| == |s.attempts| + 3 && Ran(u.attempts, 0) == Ran(s.attempts, 0) + 3
    ensures Drive([Chunk(cls, target)], s, outcomes, pause, stops) == Drive([Chunk(cls, target)], u, outcomes, pause, stops)
  {
    var plan := [Chunk(cls, target)];
    var t := TwoFailures(plan, s, outcomes, pause);
    AttemptStep(plan, t, outcomes, pause);
    OneMoreAttempt(t.attempts, Attempt(0, Recorded), 0);
    u := Success(t);
    if pause(|t.attempts|) {
      assert Session(plan, s, outcomes, pause) == (u, Paused) && Resume(u) == u;
    } else {
      SameSessionSameLife(plan, s, u, outcomes, pause, stops);
    }
  }

  /** A third failure gives the class up and ends the plan. */
  lemma {:induction false} GiveUpBlock(cls: string, target: nat, s: State, done: nat, outcomes: nat -> Outcome,
      pause: nat -> bool, stops: nat)
    requires Fresh(s, done) && done < target
    requires forall k :: |s.attempts| <= k < |s.attempts| + 3 ==> outcomes(k) == NothingRecorded
    ensures Fits([Chunk(cls, target)], s)
    ensures Ran(Drive([Chunk(cls, target)], s, outcomes, pause, stops).0.attempts, 0) == Ran(s.attempts, 0) + 3
  {
    var plan := [Chunk(cls, target)];
    var t := TwoFailures(plan, s, outcomes, pause);
    AttemptStep(plan, t, outcomes, pause);
    OneMoreAttempt(t.attempts, Attempt(0, NothingRecorded), 0);
    assert Session(plan, s, outcomes, pause) == (Failure(plan, t), Complete);
  }

  lemma {:induction false} BlockOf(target: nat, all: nat, m: nat)
    ensures Wasteful(target, all)(3 * m) == Wasteful(target, all)(3 * m + 1) == NothingRecorded
    ensures Wasteful(target, all)(3 * m + 2)
         == if m < all then HardStop else if m < all + target - 1 then Recorded else NothingRecorded
  {
    assert (3 * m) % 3 == 0 && (3 * m + 1) % 3 == 1 && (3 * m + 2) % 3 == 2 && (3 * m + 2) / 3 == m;
  }

  lemma {:induction false} WastefulLife(cls: string, target: nat, all: nat, s: State, done: nat, stops: nat,
      pause: nat -> bool)
    requires done < target && stops <= all && (stops > 0 ==> done == 0)
    requires Fresh(s, done) && |s.attempts| == 3 * (all - stops + done)
    ensures Fits([Chunk(cls, target)], s)
    ensures Ran(Drive([Chunk(cls, target)], s, Wasteful(target, all), pause, stops).0.attempts, 0)
         == Ran(s.attempts, 0) + 2 * stops + 3 * (target - done)
    decreases stops + target - done
  {
    var outcomes := Wasteful(target, all);
    BlockOf(target, all, all - stops + done);
    if stops > 0 {
      var u := StopBlock(cls, target, s, done, outcomes, pause, stops);
      WastefulLife(cls, target, all, u, done, stops - 1, pause);
    } else if done + 1 < target {
      var u := RecordBlock(cls, target, s, done, outcomes, pause, stops);
      WastefulLife(cls, target, all, u, done + 1, stops, pause);
    } else {
      GiveUpBlock(cls, target, s, done, outcomes, pause, stops);
    }
  }

  /**
   However many stops are resumed, some outcomes make a chunk use up its whole allowance: failures
   do not survive a hard stop.
   */
  lemma {:induction false} HardStopForgetsFailures(cls: string, target: nat, pause: nat -> bool, stops: nat)
    requires target >= 1
    ensures var plan := [Chunk(cls, target)];
            Ran(Drive(plan, Start(plan), Wasteful(target, stops), pause, stops).0.attempts, 0) == 3 * target + 2 * stops
  {
    WastefulLife(cls, target, stops, Start([Chunk(cls, target)]), 0, stops, pause);
  }

  /** Three attempts per episode suffice whatever happens. */
  ghost predicate ThreeAttemptsSuffice(plan: seq<Chunk>, pause: nat -> bool, stops: nat, i: nat)
    requires i < |plan|
  {
    forall outcomes :: Ran(Drive(plan, Start(plan), outcomes, pause, stops).0.attempts, i) <= 3 * plan[i].target
  }

  /** They suffice exactly when no hard stop is resumed from. */
  lemma {:induction false} ThreeAttemptsIffNothingIsResumed(cls: string, target: nat, pause: nat -> bool, stops: nat)
    requires target >= 1
    ensures ThreeAttemptsSuffice([Chunk(cls, target)], pause, stops, 0) <==> stops == 0
  {
    var plan := [Chunk(cls, target)];
    HardStopForgetsFailures(cls, target, pause, stops);
    if stops == 0 {
      forall outcomes
        ensures Ran(Drive(plan, Start(plan), outcomes, pause, stops).0.attempts, 0) <= 3 * plan[0].target
      {
        AttemptsAreBounded(plan, outcomes, pause, stops, 0);
      }
    }
  }
}
