/**
 What holds over the whole life of a batch plan, however often it is paused, stopped
 and resumed.
 */
module BatchResume {
  import opened ShuffledPlan
  import opened BatchRunner

  /** Two states that differ at most in the progress of chunks whose class was given up. */
  ghost predicate Agree(plan: seq<Chunk>, s: State, r: State) {
    && |s.completed| == |r.completed| == |plan|
    && s.attempts == r.attempts && s.gaveUp == r.gaveUp
    && forall i :: 0 <= i < |plan| && plan[i].cls !in s.gaveUp ==> s.completed[i] == r.completed[i]
  }

  /** r may still have to pass over closed chunks to get to where s is. */
  ghost predicate Behind(plan: seq<Chunk>, s: State, r: State) {
    && Fits(plan, s) && Fits(plan, r) && Agree(plan, s, r)
    && r.idx <= s.idx && r.failures == s.failures && (r.idx < s.idx ==> s.failures == 0)
    && forall i :: r.idx <= i < s.idx ==> r.completed[i] >= plan[i].target || plan[i].cls in r.gaveUp
  }

  /** The state after the closed chunk at its position. */
  function Passed(plan: seq<Chunk>, s: State): State
    requires s.idx < |plan| == |s.completed|
  {
    if s.completed[s.idx] >= plan[s.idx].target then s.(idx := s.idx + 1) else Skipped(plan, s)
  }

  lemma {:induction false} PassingStaysBehind(plan: seq<Chunk>, s: State, r: State)
    requires Behind(plan, s, r) && r.idx < |plan| && Closed(plan, r, r.idx)
    ensures r.idx < s.idx ==> Behind(plan, s, Passed(plan, r))
    ensures r.idx == s.idx ==> Closed(plan, s, s.idx) && Behind(plan, Passed(plan, s), Passed(plan, r))
  {
  }

  lemma {:induction false} AttemptStaysBehind(plan: seq<Chunk>, s: State, r: State, outcome: Outcome)
    requires Behind(plan, s, r) && r.idx == s.idx < |plan| && !Closed(plan, s, s.idx)
    ensures !Closed(plan, r, r.idx)
    ensures var t, u := AfterAttempt(plan, s, outcome), AfterAttempt(plan, r, outcome);
            Agree(plan, t, u) && (Fits(plan, t) && Fits(plan, u) ==> Behind(plan, t, u))
  {
  }

  /** From then on, both see the same outcomes, make the same attempts and end the same way. */
  lemma {:induction false} SameSession(plan: seq<Chunk>, s: State, r: State, outcomes: nat -> Outcome,
      pause: nat -> bool)
    requires Behind(plan, s, r)
    ensures var (t, e) := Session(plan, s, outcomes, pause);
            var (u, f) := Session(plan, r, outcomes, pause);
            e == f && Agree(plan, t, u)
    decreases |plan| - s.idx,
              if s.idx < |plan| then plan[s.idx].target - s.completed[s.idx] else 0,
              MAX_CONSECUTIVE_REAL_FAILURES - s.failures,
              s.idx - r.idx
  {
    if r.idx < s.idx {
      PassOver(plan, r, outcomes, pause);
      PassingStaysBehind(plan, s, r);
      SameSession(plan, s, Passed(plan, r), outcomes, pause);
    } else if s.idx < |plan| {
      if Closed(plan, r, r.idx) {
        PassOver(plan, s, outcomes, pause);
        PassOver(plan, r, outcomes, pause);
        PassingStaysBehind(plan, s, r);
        SameSession(plan, Passed(plan, s), Passed(plan, r), outcomes, pause);
      } else {
        var k := |s.attempts|;
        var outcome := outcomes(k);
        AttemptStaysBehind(plan, s, r, outcome);
        if !outcome.HardStop? && !(outcome.Recorded? && pause(k)) {
          SameSession(plan, AfterAttempt(plan, s, outcome), AfterAttempt(plan, r, outcome), outcomes, pause);
        }
      }
    }
  }

  lemma {:induction false} ResumeIsBehind(plan: seq<Chunk>, s: State, r: State)
    requires Fits(plan, s) && Fits(plan, r) && Agree(plan, s, r) && s.failures == 0
    ensures Behind(plan, Resume(s), Resume(r)) && Behind(plan, s, Resume(s))
  {
  }

  lemma {:induction false} SameLife(plan: seq<Chunk>, s: State, r: State, outcomes: nat -> Outcome,
      pause: nat -> bool, stops: nat)
    requires Behind(plan, s, r)
    ensures var (t, e) := Drive(plan, s, outcomes, pause, stops);
            var (u, f) := Drive(plan, r, outcomes, pause, stops);
            e == f && Agree(plan, t, u)
    decreases stops, Remaining(plan, s.completed, |plan|)
  {
    SameSession(plan, s, r, outcomes, pause);
    SessionShrinks(plan, s, outcomes, pause);
    var (t, e) := Session(plan, s, outcomes, pause);
    var (u, f) := Session(plan, r, outcomes, pause);
    if e.Paused? || (e.Stopped? && stops > 0) {
      SameLife(plan, Resume(t), Resume(u), outcomes, pause, if e.Paused? then stops else stops - 1);
    }
  }

  const NEVER: nat -> bool := _ => false

  /** A session that pauses is an unpaused one cut short; one that does not is the unpaused one. */
  lemma {:induction false} PausedSessionIsAPrefix(plan: seq<Chunk>, s: State, outcomes: nat -> Outcome,
      pause: nat -> bool)
    requires Fits(plan, s)
    ensures var (t, e) := Session(plan, s, outcomes, pause);
            Session(plan, s, outcomes, NEVER) == if e.Paused? then Session(plan, t, outcomes, NEVER) else (t, e)
    decreases |plan| - s.idx,
              if s.idx < |plan| then plan[s.idx].target - s.completed[s.idx] else 0,
              MAX_CONSECUTIVE_REAL_FAILURES - s.failures
  {
    if s.idx < |plan| {
      if s.completed[s.idx] >= plan[s.idx].target {
        PausedSessionIsAPrefix(plan, s.(idx := s.idx + 1), outcomes, pause);
      } else if plan[s.idx].cls in s.gaveUp {
        PausedSessionIsAPrefix(plan, Skipped(plan, s), outcomes, pause);
      } else {
        var outcome := outcomes(|s.attempts|);
        if !outcome.HardStop? && !(outcome.Recorded? && pause(|s.attempts|)) {
          PausedSessionIsAPrefix(plan, AfterAttempt(plan, s, outcome), outcomes, pause);
        }
      }
    }
  }

  /**
   Pausing at any safe points and resuming cannot be observed: the same episodes are
   attempted in the same order with the same outcomes, the same classes are given up
   with the same numbers, and every other class ends with the same progress.
   */
  lemma {:induction false} PausesAreInvisible(plan: seq<Chunk>, s: State, outcomes: nat -> Outcome,
      pause: nat -> bool, stops: nat)
    requires Fits(plan, s)
    ensures var (t, e) := Drive(plan, s, outcomes, pause, stops);
            var (u, f) := Drive(plan, s, outcomes, NEVER, stops);
            e == f && Agree(plan, t, u)
    decreases stops, Remaining(plan, s.completed, |plan|)
  {
    PausedSessionIsAPrefix(plan, s, outcomes, pause);
    SessionShrinks(plan, s, outcomes, pause);
    var (t, e) := Session(plan, s, outcomes, pause);
    if e.Paused? {
      PausesAreInvisible(plan, Resume(t), outcomes, pause, stops);
      ResumeIsBehind(plan, t, t);
      SameLife(plan, t, Resume(t), outcomes, NEVER, stops);
    } else if e.Stopped? && stops > 0 {
      PausesAreInvisible(plan, Resume(t), outcomes, pause, stops - 1);
    }
  }
}
