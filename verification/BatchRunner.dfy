/**
 The resumable executor of run_batch_plan.py.

 An episode attempt either stops the whole batch (infrastructure, injector or scorer
 failed), runs without recording an episode, or records one; outcomes(k) is what the
 k-th attempt since the plan was created does. After each recorded episode the batch
 may be paused; pause(k) says whether it is, after attempt k.
 */
module BatchRunner {
  import opened ShuffledPlan

  const MAX_CONSECUTIVE_REAL_FAILURES := 3

  datatype Outcome = HardStop | NothingRecorded | Recorded

  datatype Attempt = Attempt(chunk: nat, outcome: Outcome)

  /** What is written down when a class is given up. */
  datatype GiveUp = GiveUp(done: nat, target: nat, failures: nat)

  datatype Exit = Complete | Paused | Stopped

  /** The saved plan state, the attempts made so far, and the position of the running session. */
  datatype State = State(
    completed: seq<nat>, gaveUp: map<string, GiveUp>, attempts: seq<Attempt>, idx: nat, failures: nat)

  /** Nothing more is attempted in this chunk. */
  ghost predicate Closed(plan: seq<Chunk>, s: State, i: nat)
    requires i < |plan| == |s.completed|
  {
    s.completed[i] >= plan[i].target || plan[i].cls in s.gaveUp
  }

  ghost predicate Fits(plan: seq<Chunk>, s: State) {
    && |s.completed| == |plan| && s.idx <= |plan|
    && (forall i :: 0 <= i < s.idx ==> s.completed[i] >= plan[i].target || plan[i].cls in s.gaveUp)
    && (s.failures > 0 ==> s.failures < MAX_CONSECUTIVE_REAL_FAILURES && s.idx < |plan| && !Closed(plan, s, s.idx))
  }

  function Start(plan: seq<Chunk>): State {
    State(seq(|plan|, _ => 0), map[], [], 0, 0)
  }

  /** A new session starts over at the first chunk with no failure counted. */
  function Resume(s: State): State {
    s.(idx := 0, failures := 0)
  }

  /** Episodes still to be recorded in the first n chunks. */
  ghost function Remaining(plan: seq<Chunk>, completed: seq<nat>, n: nat): nat
    requires n <= |plan| == |completed|
  {
    if n == 0 then 0
    else Remaining(plan, completed, n - 1)
         + (if completed[n - 1] < plan[n - 1].target then plan[n - 1].target - completed[n - 1] else 0)
  }

  lemma {:induction false} RemainingShrinks(plan: seq<Chunk>, completed: seq<nat>, n: nat, i: nat, v: nat)
    requires n <= |plan| == |completed| && i < |plan| && v >= completed[i]
    ensures Remaining(plan, completed[i := v], n) <= Remaining(plan, completed, n)
    ensures i < n && completed[i] < plan[i].target && v > completed[i]
            ==> Remaining(plan, completed[i := v], n) < Remaining(plan, completed, n)
  {
    if n > 0 {
      RemainingShrinks(plan, completed, n - 1, i, v);
    }
  }

  function Skipped(plan: seq<Chunk>, s: State): State
    requires s.idx < |plan| == |s.completed|
  {
    s.(completed := s.completed[s.idx := plan[s.idx].target], idx := s.idx + 1)
  }

  function Logged(s: State, outcome: Outcome): State {
    s.(attempts := s.attempts + [Attempt(s.idx, outcome)])
  }

  function Success(s: State): State
    requires s.idx < |s.completed|
  {
    Logged(s, Recorded).(completed := s.completed[s.idx := s.completed[s.idx] + 1], failures := 0)
  }

  function Failure(plan: seq<Chunk>, s: State): State
    requires s.idx < |plan| == |s.completed|
  {
    var t := Logged(s, NothingRecorded);
    var failures := s.failures + 1;
    if failures >= MAX_CONSECUTIVE_REAL_FAILURES then
      t.(gaveUp := s.gaveUp[plan[s.idx].cls := GiveUp(s.completed[s.idx], plan[s.idx].target, failures)],
         idx := s.idx + 1, failures := 0)
    else t.(failures := failures)
  }

  function AfterAttempt(plan: seq<Chunk>, s: State, outcome: Outcome): State
    requires s.idx < |plan| == |s.completed|
  {
    match outcome
    case HardStop => Logged(s, HardStop)
    case NothingRecorded => Failure(plan, s)
    case Recorded => Success(s)
  }

  /** One run of the script from state s, until the plan is complete, paused or stopped. */
  function Session(plan: seq<Chunk>, s: State, outcomes: nat -> Outcome, pause: nat -> bool): (r: (State, Exit))
    requires Fits(plan, s)
    ensures Fits(plan, r.0)
    ensures (r.1.Paused? ==> r.0.failures == 0) && (r.1.Complete? ==> r.0.idx == |plan|)
    decreases |plan| - s.idx,
              if s.idx < |plan| then plan[s.idx].target - s.completed[s.idx] else 0,
              MAX_CONSECUTIVE_REAL_FAILURES - s.failures
  {
    if s.idx == |plan| then (s, Complete)
    else if s.completed[s.idx] >= plan[s.idx].target then
      Session(plan, s.(idx := s.idx + 1), outcomes, pause)
    else if plan[s.idx].cls in s.gaveUp then
      Session(plan, Skipped(plan, s), outcomes, pause)
    else
      var k := |s.attempts|;
      match outcomes(k)
      case HardStop => (Logged(s, HardStop), Stopped)
      case NothingRecorded => Session(plan, Failure(plan, s), outcomes, pause)
      case Recorded =>
        if pause(k) then (Success(s), Paused) else Session(plan, Success(s), outcomes, pause)
  }

  lemma {:induction false} AttemptShrinks(plan: seq<Chunk>, s: State, outcome: Outcome)
    requires s.idx < |plan| == |s.completed| && s.completed[s.idx] < plan[s.idx].target
    ensures var t := AfterAttempt(plan, s, outcome);
            && Remaining(plan, t.completed, |plan|) <= Remaining(plan, s.completed, |plan|)
            && (outcome.Recorded? ==> Remaining(plan, t.completed, |plan|) < Remaining(plan, s.completed, |plan|))
  {
    RemainingShrinks(plan, s.completed, |plan|, s.idx, s.completed[s.idx] + 1);
  }

  /** A session never adds to what is left to record, and takes something off it before it pauses. */
  lemma {:induction false} SessionShrinks(plan: seq<Chunk>, s: State, outcomes: nat -> Outcome, pause: nat -> bool)
    requires Fits(plan, s)
    ensures var (t, exit) := Session(plan, s, outcomes, pause);
            && Remaining(plan, t.completed, |plan|) <= Remaining(plan, s.completed, |plan|)
            && (exit.Paused? ==> Remaining(plan, t.completed, |plan|) < Remaining(plan, s.completed, |plan|))
    decreases |plan| - s.idx,
              if s.idx < |plan| then plan[s.idx].target - s.completed[s.idx] else 0,
              MAX_CONSECUTIVE_REAL_FAILURES - s.failures
  {
    if s.idx < |plan| {
      if s.completed[s.idx] >= plan[s.idx].target {
        PassOver(plan, s, outcomes, pause);
        SessionShrinks(plan, s.(idx := s.idx + 1), outcomes, pause);
      } else if plan[s.idx].cls in s.gaveUp {
        PassOver(plan, s, outcomes, pause);
        RemainingShrinks(plan, s.completed, |plan|, s.idx, plan[s.idx].target);
        SessionShrinks(plan, Skipped(plan, s), outcomes, pause);
      } else {
        var outcome := outcomes(|s.attempts|);
        AttemptShrinks(plan, s, outcome);
        AttemptStep(plan, s, outcomes, pause);
        if !outcome.HardStop? && !(outcome.Recorded? && pause(|s.attempts|)) {
          SessionShrinks(plan, AfterAttempt(plan, s, outcome), outcomes, pause);
        }
      }
    }
  }

  /**
   The whole life of a plan: every pause is resumed, and the first `stops` hard stops
   are resumed as well.
   */
  function Drive(plan: seq<Chunk>, s: State, outcomes: nat -> Outcome, pause: nat -> bool,
      stops: nat): (r: (State, Exit))
    requires Fits(plan, s)
    ensures Fits(plan, r.0)
    ensures !r.1.Paused? && (r.1.Complete? ==> r.0.idx == |plan|)
    decreases stops, Remaining(plan, s.completed, |plan|)
  {
    SessionShrinks(plan, s, outcomes, pause);
    var (t, exit) := Session(plan, s, outcomes, pause);
    match exit
    case Complete => (t, Complete)
    case Paused => Drive(plan, Resume(t), outcomes, pause, stops)
    case Stopped => if stops == 0 then (t, Stopped) else Drive(plan, Resume(t), outcomes, pause, stops - 1)
  }

  /** s is a state that the session started at `start` reaches inside the same chunk. */
  ghost predicate InChunk(plan: seq<Chunk>, start: State, outcomes: nat -> Outcome, pause: nat -> bool, s: State)
    requires Fits(plan, start)
  {
    && Fits(plan, s) && s.idx == start.idx < |plan| && plan[s.idx].cls !in s.gaveUp
    && s.failures < MAX_CONSECUTIVE_REAL_FAILURES
    && Session(plan, s, outcomes, pause) == Session(plan, start, outcomes, pause)
  }

  /** The chunk at start.idx was left: either the session goes on with the next chunk, or it has ended. */
  ghost predicate LeftChunk(plan: seq<Chunk>, start: State, outcomes: nat -> Outcome, pause: nat -> bool,
                            saved: State, exit: Exit)
    requires Fits(plan, start)
  {
    var whole, next := Session(plan, start, outcomes, pause), saved.(idx := start.idx + 1);
    if exit.Complete? then Fits(plan, next) && Session(plan, next, outcomes, pause) == whole
    else saved == Resume(whole.0) && exit == whole.1
  }

  lemma {:induction false} AttemptInChunk(plan: seq<Chunk>, start: State, outcomes: nat -> Outcome,
      pause: nat -> bool, s: State)
    requires Fits(plan, start) && InChunk(plan, start, outcomes, pause, s)
    requires s.completed[s.idx] < plan[s.idx].target
    ensures var k := |s.attempts|;
            var t := AfterAttempt(plan, s, outcomes(k));
            if outcomes(k).HardStop? then LeftChunk(plan, start, outcomes, pause, Resume(t), Stopped)
            else if outcomes(k).Recorded? && pause(k) then LeftChunk(plan, start, outcomes, pause, Resume(t), Paused)
            else if t.idx > s.idx then LeftChunk(plan, start, outcomes, pause, Resume(t), Complete)
            else InChunk(plan, start, outcomes, pause, t)
  {
  }

  lemma {:induction false} ChunkDone(plan: seq<Chunk>, start: State, outcomes: nat -> Outcome, pause: nat -> bool,
      s: State)
    requires Fits(plan, start) && InChunk(plan, start, outcomes, pause, s)
    requires s.completed[s.idx] >= plan[s.idx].target
    ensures LeftChunk(plan, start, outcomes, pause, Resume(s), Complete)
  {
    assert Resume(s).(idx := s.idx + 1) == s.(idx := s.idx + 1);
  }

  /** An open chunk is attempted. */
  lemma {:induction false} AttemptStep(plan: seq<Chunk>, s: State, outcomes: nat -> Outcome, pause: nat -> bool)
    requires Fits(plan, s) && s.idx < |plan| && !Closed(plan, s, s.idx)
    ensures var k := |s.attempts|;
            var t := AfterAttempt(plan, s, outcomes(k));
            if outcomes(k).HardStop? then Session(plan, s, outcomes, pause) == (t, Stopped)
            else if outcomes(k).Recorded? && pause(k) then Session(plan, s, outcomes, pause) == (t, Paused)
            else Fits(plan, t) && Session(plan, s, outcomes, pause) == Session(plan, t, outcomes, pause)
  {
  }

  /** Chunks that are not open are passed over. */
  lemma {:induction false} PassOver(plan: seq<Chunk>, s: State, outcomes: nat -> Outcome, pause: nat -> bool)
    requires Fits(plan, s) && s.failures == 0 && s.idx < |plan|
    ensures s.completed[s.idx] >= plan[s.idx].target ==>
              var t := s.(idx := s.idx + 1);
              Fits(plan, t) && Session(plan, t, outcomes, pause) == Session(plan, s, outcomes, pause)
    ensures s.completed[s.idx] < plan[s.idx].target && plan[s.idx].cls in s.gaveUp ==>
              var t := Skipped(plan, s);
              Fits(plan, t) && Session(plan, t, outcomes, pause) == Session(plan, s, outcomes, pause)
  {
  }

  /** s is a state between two chunks that the session started at `start` goes through. */
  ghost predicate OnTheWay(plan: seq<Chunk>, start: State, outcomes: nat -> Outcome, pause: nat -> bool, s: State)
    requires Fits(plan, start)
  {
    Fits(plan, s) && s.failures == 0 && Session(plan, s, outcomes, pause) == Session(plan, start, outcomes, pause)
  }

  class PlanRunner {
    const plan: seq<Chunk>
    var completed: seq<nat>
    var gaveUp: map<string, GiveUp>
    var status: string
    var attempts: seq<Attempt>

    ghost predicate Valid()
      reads this
    {
      |completed| == |plan|
    }

    /** The saved state, as the next session will find it. */
    ghost function Saved(): State
      reads this
    {
      State(completed, gaveUp, attempts, 0, 0)
    }

    constructor (items: seq<Chunk>)
      ensures Valid() && plan == items && Saved() == Start(items) && status == "running"
    {
      plan, completed, gaveUp, status := items, seq(|items|, _ => 0), map[], "running";
      attempts := [];
    }

    /** The attempts of one open chunk; Complete means that the batch goes on with the next chunk. */
    method RunChunk(idx: nat, outcomes: nat -> Outcome, pause: nat -> bool) returns (exit: Exit)
      requires Valid() && idx < |plan|
      requires Fits(plan, Saved().(idx := idx)) && !Closed(plan, Saved(), idx)
      modifies this`completed, this`gaveUp, this`attempts
      ensures Valid()
      ensures LeftChunk(plan, old(Saved()).(idx := idx), outcomes, pause, Saved(), exit)
    {
      ghost var start := Saved().(idx := idx);
      ghost var s := start;
      var failures, gaveUpNow := 0, false;
      while completed[idx] < plan[idx].target
        invariant Valid() && s == Saved().(idx := idx, failures := failures)
        invariant InChunk(plan, start, outcomes, pause, s)
        decreases plan[idx].target - completed[idx], MAX_CONSECUTIVE_REAL_FAILURES - failures
      {
        AttemptInChunk(plan, start, outcomes, pause, s);
        var k := |attempts|;
        failures, gaveUpNow := Tally(idx, failures, outcomes(k));
        if outcomes(k).HardStop? {
          return Stopped;
        }
        if gaveUpNow {
          return Complete;
        }
        if outcomes(k).Recorded? && pause(k) {
          return Paused;
        }
        s := AfterAttempt(plan, s, outcomes(k));
      }
      ChunkDone(plan, start, outcomes, pause, s);
      return Complete;
    }

    /** Books one attempt: a stop, a failure that may give the class up, or a recorded episode. */
    method Tally(idx: nat, failures: nat, outcome: Outcome) returns (failuresNow: nat, gaveUpNow: bool)
      requires Valid() && idx < |plan|
      modifies this`completed, this`gaveUp, this`attempts
      ensures Valid()
      ensures var t := AfterAttempt(plan, old(Saved()).(idx := idx, failures := failures), outcome);
              Saved() == Resume(t) && failuresNow == t.failures && gaveUpNow == (t.idx > idx)
    {
      failuresNow, gaveUpNow := failures, false;
      attempts := attempts + [Attempt(idx, outcome)];
      match outcome
      case HardStop =>
      case NothingRecorded =>
        failuresNow := failures + 1;
        if failuresNow >= MAX_CONSECUTIVE_REAL_FAILURES {
          gaveUp := gaveUp[plan[idx].cls := GiveUp(completed[idx], plan[idx].target, failuresNow)];
          failuresNow, gaveUpNow := 0, true;
        }
      case Recorded =>
        failuresNow := 0;
        completed := completed[idx := completed[idx] + 1];
    }

    /** One run of the script; baselinesClean is the verdict of the baseline check before it starts. */
    method RunSession(outcomes: nat -> Outcome, pause: nat -> bool, baselinesClean: bool) returns (exit: Exit)
      requires Valid()
      modifies this
      ensures Valid()
      ensures !baselinesClean ==> Saved() == old(Saved()) && exit == Stopped
      ensures baselinesClean ==> var (t, e) := Session(plan, old(Saved()), outcomes, pause);
                                 Saved() == Resume(t) && exit == e
      ensures status == if exit.Complete? then "complete" else "paused"
    {
      if !baselinesClean {
        status := "paused";
        return Stopped;
      }
      ghost var start := Saved();
      var idx := 0;
      while idx < |plan|
        invariant Valid() && OnTheWay(plan, start, outcomes, pause, Saved().(idx := idx))
      {
        ghost var s := Saved().(idx := idx);
        PassOver(plan, s, outcomes, pause);
        if completed[idx] >= plan[idx].target {
          idx := idx + 1;
          continue;
        }
        if plan[idx].cls in gaveUp {
          completed := completed[idx := plan[idx].target];
          idx := idx + 1;
          assert Saved().(idx := idx) == Skipped(plan, s);
          continue;
        }
        exit := RunChunk(idx, outcomes, pause);
        if !exit.Complete? {
          status := "paused";
          return;
        }
        idx := idx + 1;
      }
      status := "complete";
      return Complete;
    }
  }
}
