/**
 How a complete batch leaves its chunks, above all those of classes that were given up:
 which of them are written up to their target although nothing was recorded for it, and
 which keep what was recorded.
 */
module BatchSettled {
  import opened Options
  import opened ShuffledPlan
  import opened BatchRunner
  import opened BatchBounds

  /** The chunk of the last attempt at a class. */
  function LastChunkOf(plan: seq<Chunk>, attempts: seq<Attempt>, cls: string): Option<nat> {
    if attempts == [] then None
    else
      var c := attempts[|attempts| - 1].chunk;
      if c < |plan| && plan[c].cls == cls then Some(c) else LastChunkOf(plan, attempts[..|attempts| - 1], cls)
  }

  lemma {:induction false} LastOfOneMore(plan: seq<Chunk>, attempts: seq<Attempt>, attempt: Attempt, cls: string)
    ensures LastChunkOf(plan, attempts + [attempt], cls)
         == if attempt.chunk < |plan| && plan[attempt.chunk].cls == cls then Some(attempt.chunk)
            else LastChunkOf(plan, attempts, cls)
  {
    assert (attempts + [attempt])[..|attempts|] == attempts;
  }

  /** Chunk i gave its class up with what it had recorded since s, and that was too little. */
  ghost predicate GaveUpHere(plan: seq<Chunk>, s: State, t: State, i: nat)
    requires i < |plan| == |s.completed| == |t.completed|
  {
    && t.completed[i] < plan[i].target
    && t.completed[i] + RecordedIn(s.attempts, i) == s.completed[i] + RecordedIn(t.attempts, i)
    && plan[i].cls in t.gaveUp && t.gaveUp[plan[i].cls] == GiveUp(t.completed[i], plan[i].target, 3)
  }

  /** What was given up before stays as it is, with no more attempts, and a chunk behind s is not touched. */
  ghost predicate LeftAlone(plan: seq<Chunk>, s: State, t: State, i: nat)
    requires i < |plan| == |s.completed| == |t.completed|
  {
    var cls := plan[i].cls;
    && (i < s.idx ==> t.completed[i] == s.completed[i] && RecordedIn(t.attempts, i) == RecordedIn(s.attempts, i))
    && (cls in s.gaveUp ==>
          && cls in t.gaveUp && t.gaveUp[cls] == s.gaveUp[cls]
          && LastChunkOf(plan, t.attempts, cls) == LastChunkOf(plan, s.attempts, cls))
  }

  /** How a session from s to its complete end t leaves a chunk that is still ahead of s. */
  ghost predicate Settled(plan: seq<Chunk>, s: State, t: State, i: nat)
    requires i < |plan| == |s.completed| == |t.completed|
  {
    var cls := plan[i].cls;
    if cls in s.gaveUp || cls !in t.gaveUp then i >= s.idx ==> t.completed[i] >= plan[i].target
    else
      var giver := LastChunkOf(plan, t.attempts, cls);
      && giver.Some? && giver.value >= s.idx
      && (i >= s.idx ==> if giver.value == i then GaveUpHere(plan, s, t, i) else t.completed[i] >= plan[i].target)
  }

  ghost predicate Ends(plan: seq<Chunk>, s: State, t: State, i: nat)
    requires i < |plan|
  {
    |s.completed| == |t.completed| == |plan| && LeftAlone(plan, s, t, i) && Settled(plan, s, t, i)
  }

  lemma {:induction false} PassEnds(plan: seq<Chunk>, s: State, t: State, i: nat)
    requires i < |plan| && s.idx < |plan| == |s.completed| && s.completed[s.idx] >= plan[s.idx].target
    requires Ends(plan, s.(idx := s.idx + 1), t, i)
    ensures Ends(plan, s, t, i)
  {
  }

  /** A chunk of a class given up before is written up to its target. */
  lemma {:induction false} SkipEnds(plan: seq<Chunk>, s: State, t: State, i: nat)
    requires i < |plan| && s.idx < |plan| == |s.completed| && plan[s.idx].cls in s.gaveUp
    requires Ends(plan, Skipped(plan, s), t, i)
    ensures Ends(plan, s, t, i)
  {
  }

  lemma {:induction false} AttemptEnds(plan: seq<Chunk>, s: State, outcome: Outcome, t: State, i: nat)
    requires i < |plan| && Fits(plan, s) && s.idx < |plan| && !Closed(plan, s, s.idx) && !outcome.HardStop?
    requires Ends(plan, AfterAttempt(plan, s, outcome), t, i)
    ensures Ends(plan, s, t, i)
  {
    OneMoreAttempt(s.attempts, Attempt(s.idx, outcome), i);
    LastOfOneMore(plan, s.attempts, Attempt(s.idx, outcome), plan[i].cls);
  }

  lemma {:induction false} SessionEnds(plan: seq<Chunk>, s: State, outcomes: nat -> Outcome, pause: nat -> bool, i: nat)
    requires Fits(plan, s) && i < |plan| && Session(plan, s, outcomes, pause).1.Complete?
    ensures Ends(plan, s, Session(plan, s, outcomes, pause).0, i)
    decreases |plan| - s.idx,
              if s.idx < |plan| then plan[s.idx].target - s.completed[s.idx] else 0,
              MAX_CONSECUTIVE_REAL_FAILURES - s.failures
  {
    if s.idx < |plan| {
      var t := Session(plan, s, outcomes, pause).0;
      if s.completed[s.idx] >= plan[s.idx].target {
        PassOver(plan, s, outcomes, pause);
        SessionEnds(plan, s.(idx := s.idx + 1), outcomes, pause, i);
        PassEnds(plan, s, t, i);
      } else if plan[s.idx].cls in s.gaveUp {
        PassOver(plan, s, outcomes, pause);
        SessionEnds(plan, Skipped(plan, s), outcomes, pause, i);
        SkipEnds(plan, s, t, i);
      } else {
        var outcome := outcomes(|s.attempts|);
        AttemptStep(plan, s, outcomes, pause);
        SessionEnds(plan, AfterAttempt(plan, s, outcome), outcomes, pause, i);
        AttemptEnds(plan, s, outcome, t, i);
      }
    }
  }

  /** A complete session leaves every chunk ahead of it whose class was given up before at its target. */
  lemma {:induction false} GivenUpChunksArePassedOver(plan: seq<Chunk>, s: State, outcomes: nat -> Outcome,
      pause: nat -> bool, i: nat)
    requires Fits(plan, s) && s.idx <= i < |plan| && plan[i].cls in s.gaveUp
    requires Session(plan, s, outcomes, pause).1.Complete?
    ensures Session(plan, s, outcomes, pause).0.completed[i] >= plan[i].target
  {
    SessionEnds(plan, s, outcomes, pause, i);
  }

  // --- which attempts a session makes, and how it ends ---

  /** Attempt k had its outcome, and did not end the session. */
  predicate WentOn(t: State, outcomes: nat -> Outcome, pause: nat -> bool, k: nat)
    requires k < |t.attempts|
  {
    t.attempts[k].outcome == outcomes(k) && !outcomes(k).HardStop? && !(outcomes(k).Recorded? && pause(k))
  }

  /** Every attempt from `from` on had its outcome; the last one alone may have ended the session, and the exit says how. */
  ghost predicate EndsAsItShould(t: State, exit: Exit, outcomes: nat -> Outcome, pause: nat -> bool, from: nat) {
    var last := |t.attempts| - 1;
    && from <= |t.attempts|
    && (forall k :: from <= k < last ==> WentOn(t, outcomes, pause, k))
    && (from <= last ==> t.attempts[last].outcome == outcomes(last))
    && (exit.Stopped? <==> from <= last && outcomes(last).HardStop?)
    && (exit.Paused? <==> from <= last && outcomes(last).Recorded? && pause(last))
  }

  lemma {:induction false} OneMoreWentOn(t: State, exit: Exit, outcomes: nat -> Outcome, pause: nat -> bool, from: nat)
    requires EndsAsItShould(t, exit, outcomes, pause, from + 1)
    requires WentOn(t, outcomes, pause, from)
    ensures EndsAsItShould(t, exit, outcomes, pause, from)
  {
  }

  lemma {:induction false} AttemptIsLast(s: State, plan: seq<Chunk>, outcome: Outcome)
    requires s.idx < |plan| == |s.completed|
    ensures AfterAttempt(plan, s, outcome).attempts == s.attempts + [Attempt(s.idx, outcome)]
  {
  }

  /**
   A session stops right after its first hard stop, pauses right after the first recorded episode
   at which a pause was asked for, and completes otherwise.
   */
  lemma {:induction false} SessionEndsAsItShould(plan: seq<Chunk>, s: State, outcomes: nat -> Outcome, pause: nat -> bool)
    requires Fits(plan, s)
    ensures var (t, exit) := Session(plan, s, outcomes, pause);
            s.attempts <= t.attempts && EndsAsItShould(t, exit, outcomes, pause, |s.attempts|)
    decreases |plan| - s.idx,
              if s.idx < |plan| then plan[s.idx].target - s.completed[s.idx] else 0,
              MAX_CONSECUTIVE_REAL_FAILURES - s.failures
  {
    if s.idx < |plan| {
      if s.completed[s.idx] >= plan[s.idx].target {
        PassOver(plan, s, outcomes, pause);
        SessionEndsAsItShould(plan, s.(idx := s.idx + 1), outcomes, pause);
      } else if plan[s.idx].cls in s.gaveUp {
        PassOver(plan, s, outcomes, pause);
        SessionEndsAsItShould(plan, Skipped(plan, s), outcomes, pause);
      } else {
        var outcome := outcomes(|s.attempts|);
        AttemptStep(plan, s, outcomes, pause);
        AttemptIsLast(s, plan, outcome);
        if !outcome.HardStop? && !(outcome.Recorded? && pause(|s.attempts|)) {
          var (t, exit) := Session(plan, s, outcomes, pause);
          SessionEndsAsItShould(plan, AfterAttempt(plan, s, outcome), outcomes, pause);
          OneMoreWentOn(t, exit, outcomes, pause, |s.attempts|);
        }
      }
    }
  }

  // --- over the whole life ---

  /** The state from which the last session of a plan's life starts. */
  ghost function LastStart(plan: seq<Chunk>, s: State, outcomes: nat -> Outcome, pause: nat -> bool, stops: nat): (r: State)
    requires Fits(plan, s)
    ensures Fits(plan, r) && Session(plan, r, outcomes, pause) == Drive(plan, s, outcomes, pause, stops)
    decreases stops, Remaining(plan, s.completed, |plan|)
  {
    SessionShrinks(plan, s, outcomes, pause);
    var (t, exit) := Session(plan, s, outcomes, pause);
    if exit.Paused? then LastStart(plan, Resume(t), outcomes, pause, stops)
    else if exit.Stopped? && stops > 0 then LastStart(plan, Resume(t), outcomes, pause, stops - 1)
    else s
  }

  lemma {:induction false} LastStartLeads(plan: seq<Chunk>, s: State, outcomes: nat -> Outcome, pause: nat -> bool,
      stops: nat, i: nat)
    requires Fits(plan, s) && s.idx == 0
    ensures var r := LastStart(plan, s, outcomes, pause, stops); Leads(plan, s, r, i) && r.idx == 0
    decreases stops, Remaining(plan, s.completed, |plan|)
  {
    SessionShrinks(plan, s, outcomes, pause);
    var (t, e) := Session(plan, s, outcomes, pause);
    if e.Paused? || (e.Stopped? && stops > 0) {
      var rest := if e.Paused? then stops else stops - 1;
      var b := SessionLeads(plan, s, outcomes, pause, i);
      ResumedLeads(plan, b, t, e, i);
      LeadsOn(plan, s, b, Resume(t), i);
      LastStartLeads(plan, Resume(t), outcomes, pause, rest, i);
      LeadsOn(plan, s, Resume(t), LastStart(plan, Resume(t), outcomes, pause, rest), i);
    }
  }

  /**
   In a complete plan a chunk of a class that was given up is at its target, recorded or
   not, with one exception: if the class was given up in the last session, the chunk that
   gave it up, which is the one of the last attempt at the class, is below its target at
   exactly what was recorded, and that is what was written down.
   */
  lemma {:induction false} GivenUpChunksEndAtTargetButOne(plan: seq<Chunk>, outcomes: nat -> Outcome,
      pause: nat -> bool, stops: nat, i: nat)
    requires i < |plan|
    requires var (t, e) := Drive(plan, Start(plan), outcomes, pause, stops); e.Complete? && plan[i].cls in t.gaveUp
    ensures var t := Drive(plan, Start(plan), outcomes, pause, stops).0;
            var r := LastStart(plan, Start(plan), outcomes, pause, stops);
            var recorded := RecordedIn(t.attempts, i);
            if plan[i].cls !in r.gaveUp && LastChunkOf(plan, t.attempts, plan[i].cls) == Some(i)
            then t.completed[i] == recorded < plan[i].target && t.gaveUp[plan[i].cls] == GiveUp(recorded, plan[i].target, 3)
            else t.completed[i] == plan[i].target
  {
    var r := LastStart(plan, Start(plan), outcomes, pause, stops);
    LastStartLeads(plan, Start(plan), outcomes, pause, stops, i);
    SessionEnds(plan, r, outcomes, pause, i);
    ProgressIsWhatWasRecorded(plan, outcomes, pause, stops, i);
  }
}
