/**
 The cross-process lock of injector.py: one row of the system_lock table, an UPDATE
 that takes the row when it is free or stale, and a release that only its own holder
 can make. Holder strings carry the process id, the class and the start time, so no
 two processes share one.
 */
module SystemLock {
  import opened Options

  const STALE_S := 600
  const RETRY_S := 5
  const MAX_WAIT_S := 30
  const MAX_ATTEMPTS := MAX_WAIT_S / RETRY_S + 1

  datatype Row = Free | Held(holder: string, acquiredAt: int)

  /** The WHERE clause of the acquiring UPDATE. */
  predicate Takable(row: Row, now: int) {
    row.Free? || row.acquiredAt < now - STALE_S
  }

  function Released(row: Row, holder: string): Row {
    if row.Held? && row.holder == holder then Free else row
  }

  /** What the row has become before attempt i, when all attempts before it failed. */
  ghost function RowBefore(row: Row, others: (nat, Row) -> Row, i: nat): Row {
    if i == 0 then row else others(i - 1, RowBefore(row, others, i - 1))
  }

  /** The first n attempts of a process all find the row taken. */
  ghost predicate Refused(row: Row, others: (nat, Row) -> Row, clock: nat -> int, n: nat) {
    forall i :: 0 <= i < n ==> !Takable(RowBefore(row, others, i), clock(i))
  }

  class LockTable {
    var row: Row

    constructor ()
      ensures row == Free
    {
      row := Free;
    }

    method TryAcquire(holder: string, now: int) returns (acquired: bool)
      modifies this
      ensures acquired == Takable(old(row), now)
      ensures row == if acquired then Held(holder, now) else old(row)
    {
      acquired := row.Free? || row.acquiredAt < now - STALE_S;
      if acquired {
        row := Held(holder, now);
      }
    }

    method Release(holder: string)
      modifies this
      ensures row == Released(old(row), holder)
    {
      if row.Held? && row.holder == holder {
        row := Free;
      }
    }

    /**
     The retry loop. clock(i) is the time read by attempt i, and others(i, r) is what
     the rest of the system makes of row r during the sleep after attempt i.
     */
    method AcquireOrDie(holder: string, clock: nat -> int, others: (nat, Row) -> Row)
      returns (acquired: bool, attempts: nat)
      modifies this
      ensures 1 <= attempts <= MAX_ATTEMPTS
      ensures Refused(old(row), others, clock, attempts - 1)
      ensures acquired == Takable(RowBefore(old(row), others, attempts - 1), clock(attempts - 1))
      ensures acquired ==> row == Held(holder, clock(attempts - 1))
      ensures !acquired ==> attempts == MAX_ATTEMPTS && row == RowBefore(old(row), others, attempts - 1)
    {
      ghost var start := row;
      var waited := 0;
      attempts := 1;
      acquired := TryAcquire(holder, clock(0));
      while !acquired
        invariant waited == RETRY_S * (attempts - 1) && waited <= MAX_WAIT_S && attempts >= 1
        invariant Refused(start, others, clock, attempts - 1)
        invariant acquired == Takable(RowBefore(start, others, attempts - 1), clock(attempts - 1))
        invariant row == if acquired then Held(holder, clock(attempts - 1)) else RowBefore(start, others, attempts - 1)
        decreases MAX_WAIT_S - waited, !acquired
      {
        if waited >= MAX_WAIT_S {
          break;
        }
        waited := waited + RETRY_S;
        row := others(attempts - 1, row);
        assert row == RowBefore(start, others, attempts);
        acquired := TryAcquire(holder, clock(attempts));
        attempts := attempts + 1;
      }
    }
  }

  // --- any number of processes, interleaved ---

  /**
   Where a process is. The clock is read before the UPDATE runs, and other steps can
   fall in between; entered is the time at which the UPDATE took effect.
   */
  datatype Phase =
    | Waiting(waited: nat)
    | Reading(waited: nat, now: int)
    | Inside(since: int, entered: int)
    | Left
    | GaveUp
    | Crashed

  datatype State = State(clock: int, row: Row, phases: map<string, Phase>)

  datatype Step =
    | Tick(seconds: nat)
    | Start(p: string)
    | ReadClock(p: string)
    | Update(p: string)
    | Release(p: string)
    | Crash(p: string)

  /** One step of the system; a step that its process cannot take changes nothing. */
  function Apply(s: State, step: Step): State {
    match step
    case Tick(seconds) => s.(clock := s.clock + seconds)
    case Start(p) => if p in s.phases then s else s.(phases := s.phases[p := Waiting(0)])
    case ReadClock(p) =>
      if p in s.phases && s.phases[p].Waiting?
      then s.(phases := s.phases[p := Reading(s.phases[p].waited, s.clock)])
      else s
    case Update(p) =>
      if p in s.phases && s.phases[p].Reading? then
        var Reading(waited, now) := s.phases[p];
        if Takable(s.row, now) then
          s.(row := Held(p, now), phases := s.phases[p := Inside(now, s.clock)])
        else
          s.(phases := s.phases[p := if waited >= MAX_WAIT_S then GaveUp else Waiting(waited + RETRY_S)])
      else s
    case Release(p) =>
      if p in s.phases && s.phases[p].Inside?
      then s.(row := Released(s.row, p), phases := s.phases[p := Left])
      else s
    case Crash(p) => if p in s.phases then s.(phases := s.phases[p := Crashed]) else s
  }

  function After(start: int, steps: seq<Step>): State {
    if steps == [] then State(start, Free, map[])
    else Apply(After(start, steps[..|steps| - 1]), steps[|steps| - 1])
  }

  ghost predicate IsInside(s: State, p: string) {
    p in s.phases && s.phases[p].Inside?
  }

  ghost predicate Holds(s: State, p: string) {
    s.row.Held? && s.row.holder == p
  }

  /** What is known of a process p from its own phase, the clock and the row. */
  ghost predicate Consistent(s: State, p: string)
    requires p in s.phases
  {
    match s.phases[p]
    case Waiting(_) => !Holds(s, p)
    case Reading(_, now) => !Holds(s, p) && now <= s.clock
    case Inside(since, entered) =>
      && since <= entered <= s.clock
      && (if Holds(s, p) then s.row.acquiredAt == since else s.clock > since + STALE_S)
    case _ => true
  }

  ghost predicate Inv(s: State) {
    && (s.row.Held? ==> s.row.acquiredAt <= s.clock && s.row.holder in s.phases)
    && forall p :: p in s.phases ==> Consistent(s, p)
  }

  lemma {:induction false} InvStep(s: State, step: Step)
    requires Inv(s)
    ensures Inv(Apply(s, step))
  {
    var t := Apply(s, step);
    forall p | p in t.phases
      ensures Consistent(t, p)
    {
      if p in s.phases {
        assert Consistent(s, p);
      }
      if step.Update? && s.row.Held? {
        assert Consistent(s, s.row.holder);
      }
    }
  }

  lemma {:induction false} InvHolds(start: int, steps: seq<Step>)
    ensures Inv(After(start, steps))
  {
    if steps != [] {
      InvHolds(start, steps[..|steps| - 1]);
      InvStep(After(start, steps[..|steps| - 1]), steps[|steps| - 1]);
    }
  }

  lemma {:induction false} OneMore(start: int, steps: seq<Step>, step: Step)
    ensures After(start, steps + [step]) == Apply(After(start, steps), step)
  {
    assert (steps + [step])[..|steps|] == steps;
  }

  /**
   A process inside the locked region is either the holder of the row or has been
   overtaken, and then its own clock reading is more than ten minutes old.
   */
  lemma {:induction false} OvertakenOnlyWhenStale(start: int, steps: seq<Step>, p: string)
    requires IsInside(After(start, steps), p)
    ensures var s := After(start, steps);
            Holds(s, p) || s.clock > s.phases[p].since + STALE_S
  {
    InvHolds(start, steps);
  }

  /** Processes that leave within ten minutes of their clock reading are never inside together. */
  lemma {:induction false} MutualExclusion(start: int, steps: seq<Step>, p: string, q: string)
    requires var s := After(start, steps);
             && IsInside(s, p) && s.clock <= s.phases[p].since + STALE_S
             && IsInside(s, q) && s.clock <= s.phases[q].since + STALE_S
    ensures p == q
  {
    InvHolds(start, steps);
  }

  /**
   Counted from the entry into the region, the margin is ten minutes less the time
   that passed between the clock reading and the UPDATE.
   */
  lemma {:induction false} MarginFromEntry(start: int, steps: seq<Step>, p: string, delay: nat)
    requires var s := After(start, steps);
             IsInside(s, p) && !Holds(s, p) && s.phases[p].entered - s.phases[p].since <= delay
    ensures var s := After(start, steps);
            s.clock > s.phases[p].entered + STALE_S - delay
  {
    InvHolds(start, steps);
  }

  /** A process that reads the clock and enters delay seconds later, and another that arrives once the row is stale. */
  function Overtaking(p: string, q: string, delay: nat): seq<Step>
    requires delay <= STALE_S + 1
  {
    [Start(p), ReadClock(p), Tick(delay), Update(p), Tick(STALE_S + 1 - delay), Start(q), ReadClock(q), Update(q)]
  }

  /** For every delay up to 601 seconds, two processes can be inside 601 seconds less that delay after an entry. */
  lemma {:induction false} TenMinutesFromEntryFails(p: string, q: string, delay: nat)
    requires p != q && delay <= STALE_S + 1
    ensures var s := After(0, Overtaking(p, q, delay));
            && IsInside(s, p) && s.phases[p] == Inside(0, delay) && s.clock - s.phases[p].entered == STALE_S + 1 - delay
            && IsInside(s, q) && s.phases[q] == Inside(s.clock, s.clock)
  {
    var reading := [Start(p)] + [ReadClock(p)];
    OneMore(0, [], Start(p));
    assert [] + [Start(p)] == [Start(p)];
    OneMore(0, [Start(p)], ReadClock(p));
    OneMore(0, reading, Tick(delay));
    OneMore(0, reading + [Tick(delay)], Update(p));
    var entered := reading + [Tick(delay)] + [Update(p)];
    assert After(0, entered).phases[p] == Inside(0, delay);
    var stale := entered + [Tick(STALE_S + 1 - delay)];
    OneMore(0, entered, Tick(STALE_S + 1 - delay));
    OneMore(0, stale, Start(q));
    OneMore(0, stale + [Start(q)], ReadClock(q));
    OneMore(0, stale + [Start(q)] + [ReadClock(q)], Update(q));
    assert stale + [Start(q)] + [ReadClock(q)] + [Update(q)] == Overtaking(p, q, delay);
  }

  /** Inside, having entered at most delay seconds after reading the clock and at most margin seconds ago. */
  ghost predicate Recent(s: State, p: string, delay: nat, margin: nat) {
    && IsInside(s, p)
    && s.phases[p].entered - s.phases[p].since <= delay
    && s.clock <= s.phases[p].entered + margin
  }

  /**
   Processes that enter within delay seconds of their clock reading and leave within margin seconds
   of entry exclude each other.
   */
  ghost predicate ExcludesFromEntry(delay: nat, margin: nat) {
    forall start, steps, p, q ::
      Recent(After(start, steps), p, delay, margin) && Recent(After(start, steps), q, delay, margin) ==> p == q
  }

  /** On every interleaving the margin counted from entry is kept exactly when it and the delay fit into the ten minutes. */
  lemma {:induction false} MarginFromEntryIsExact(delay: nat, margin: nat)
    ensures ExcludesFromEntry(delay, margin) <==> margin + delay <= STALE_S
  {
    if margin + delay <= STALE_S {
      forall start, steps, p, q
        | Recent(After(start, steps), p, delay, margin) && Recent(After(start, steps), q, delay, margin)
        ensures p == q
      {
        MutualExclusion(start, steps, p, q);
      }
    } else {
      var p, q, d := "p", "q", if delay <= STALE_S + 1 then delay else STALE_S + 1;
      TenMinutesFromEntryFails(p, q, d);
      var s := After(0, Overtaking(p, q, d));
      assert Recent(s, p, delay, margin) && Recent(s, q, delay, margin);
    }
  }

  /** A held row becomes free only when its own holder releases it, so an overtaken process cannot free the lock. */
  lemma {:induction false} OnlyTheHolderFrees(start: int, steps: seq<Step>, step: Step)
    requires After(start, steps).row.Held? && After(start, steps + [step]).row.Free?
    ensures step == Release(After(start, steps).row.holder)
    ensures IsInside(After(start, steps), After(start, steps).row.holder)
  {
    OneMore(start, steps, step);
  }

  /** And that release does free it, while the release of an overtaken process leaves it to its holder. */
  lemma {:induction false} ReleaseFreesItsOwnRow(start: int, steps: seq<Step>, p: string)
    requires IsInside(After(start, steps), p)
    ensures var s, t := After(start, steps), After(start, steps + [Release(p)]);
            && t.phases[p] == Left
            && t.row == if Holds(s, p) then Free else s.row
  {
    OneMore(start, steps, Release(p));
  }

  /** Updates that a process has made in a run. */
  function Attempts(start: int, steps: seq<Step>, p: string): nat {
    if steps == [] then 0
    else
      var rest, last := steps[..|steps| - 1], steps[|steps| - 1];
      var phases := After(start, rest).phases;
      Attempts(start, rest, p) + (if last == Update(p) && p in phases && phases[p].Reading? then 1 else 0)
  }

  /** What a process has waited fits the attempts it has made, and it gives up after exactly seven. */
  predicate Patient(s: State, p: string, attempts: nat) {
    if p !in s.phases then attempts == 0
    else
      match s.phases[p]
      case Waiting(waited) => waited == 5 * attempts && attempts < 7
      case Reading(waited, _) => waited == 5 * attempts && attempts < 7
      case GaveUp => attempts == 7
      case _ => attempts <= 7
  }

  lemma {:induction false} PatienceStep(s: State, step: Step, p: string, attempts: nat)
    requires Patient(s, p, attempts)
    ensures Patient(Apply(s, step), p, attempts + (if step == Update(p) && p in s.phases && s.phases[p].Reading? then 1 else 0))
  {
  }

  /** On every interleaving a process makes at most seven attempts, and gives up after the seventh only. */
  lemma {:induction false} SevenAttempts(start: int, steps: seq<Step>, p: string)
    ensures Patient(After(start, steps), p, Attempts(start, steps, p))
  {
    if steps != [] {
      var rest := steps[..|steps| - 1];
      SevenAttempts(start, rest, p);
      PatienceStep(After(start, rest), steps[|steps| - 1], p, Attempts(start, rest, p));
    }
  }

  /** A held row changes hands directly only once it is stale. */
  lemma {:induction false} TakeoverOnlyWhenStale(start: int, steps: seq<Step>, step: Step)
    requires After(start, steps).row.Held? && After(start, steps + [step]).row.Held?
    requires After(start, steps).row != After(start, steps + [step]).row
    ensures After(start, steps).clock > After(start, steps).row.acquiredAt + STALE_S
  {
    OneMore(start, steps, step);
    InvHolds(start, steps);
  }

  // --- a newcomer after a crash ---

  /** The state after the first n steps from a given one. */
  function Runs(s: State, steps: seq<Step>, n: nat): State
    requires n <= |steps|
  {
    if n == 0 then s else Apply(Runs(s, steps, n - 1), steps[n - 1])
  }

  function Elapsed(steps: seq<Step>, n: nat): nat
    requires n <= |steps|
  {
    if n == 0 then 0 else Elapsed(steps, n - 1) + (if steps[n - 1].Tick? then steps[n - 1].seconds else 0)
  }

  /** Anything but an attempt at the row and steps of p: others may start, read, release and crash, and time may pass. */
  ghost predicate LeavesTheRowTo(steps: seq<Step>, p: string) {
    forall i :: 0 <= i < |steps| ==> steps[i].Tick? || (!steps[i].Update? && steps[i].p != p)
  }

  lemma {:induction false} RowStaysTakable(s: State, steps: seq<Step>, n: nat, p: string)
    requires LeavesTheRowTo(steps, p) && n <= |steps|
    ensures var t := Runs(s, steps, n);
            && (p in t.phases <==> p in s.phases) && (p in s.phases ==> t.phases[p] == s.phases[p])
            && (t.row == s.row || t.row.Free?) && t.clock == s.clock + Elapsed(steps, n)
  {
    if n > 0 {
      RowStaysTakable(s, steps, n - 1, p);
    }
  }

  /** Whoever finds the row takable when reading the clock gets in, if nobody else attempts the row before the update. */
  lemma {:induction false} TakableRowIsTaken(s: State, steps: seq<Step>, p: string)
    requires p in s.phases && s.phases[p].Waiting? && Takable(s.row, s.clock) && LeavesTheRowTo(steps, p)
    ensures var t := Apply(Runs(Apply(s, ReadClock(p)), steps, |steps|), Update(p));
            IsInside(t, p) && Holds(t, p)
  {
    RowStaysTakable(Apply(s, ReadClock(p)), steps, |steps|, p);
  }

  lemma {:induction false} RowGoesStale(s: State, steps: seq<Step>, p: string)
    requires LeavesTheRowTo(steps, p)
    requires s.row.Held? ==> s.clock + Elapsed(steps, |steps|) > s.row.acquiredAt + STALE_S
    ensures var t := Runs(s, steps, |steps|); Takable(t.row, t.clock)
  {
    RowStaysTakable(s, steps, |steps|, p);
  }

  /**
   Whatever happened before, crashes included: a process that arrives gets in if the row
   is past the stale margin when it reads the clock, whatever happens before, between and
   after its steps, as long as nobody else attempts the row meanwhile.
   */
  lemma {:induction false} NoCrashWedgesTheLock(start: int, steps: seq<Step>, p: string, before: seq<Step>,
      between: seq<Step>, after: seq<Step>)
    requires p !in After(start, steps).phases
    requires LeavesTheRowTo(before, p) && LeavesTheRowTo(between, p) && LeavesTheRowTo(after, p)
    requires Elapsed(before, |before|) + Elapsed(between, |between|) > STALE_S
    ensures var arrived := Apply(Runs(After(start, steps), before, |before|), Start(p));
            var reading := Apply(Runs(arrived, between, |between|), ReadClock(p));
            var s := Apply(Runs(reading, after, |after|), Update(p));
            IsInside(s, p) && Holds(s, p)
  {
    var s := After(start, steps);
    InvHolds(start, steps);
    assert s.row.Held? ==> s.row.acquiredAt <= s.clock;
    RowStaysTakable(s, before, |before|, p);
    var arrived := Apply(Runs(s, before, |before|), Start(p));
    assert arrived.phases[p] == Waiting(0);
    RowGoesStale(arrived, between, p);
    RowStaysTakable(arrived, between, |between|, p);
    TakableRowIsTaken(Runs(arrived, between, |between|), after, p);
  }
}
