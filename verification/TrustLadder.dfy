/**
 Trust dimensions B (who diagnoses: stub or LLM) and C (who acts: deterministic
 fallback or LLM) of llm_trust_state.py. Both are the same ladder under different
 names: promoted by a streak of correct outcomes, back to the bottom on one miss,
 with a history row for every outcome and every reset.
 */
module TrustLadder {

  const PROMOTION_STREAK := 5

  /** promoted is mode 'llm' in dimension B and state 'llm_can_act' in dimension C. */
  datatype Standing = Standing(promoted: bool, streak: nat)

  const SAFE_DEFAULT := Standing(false, 0)

  datatype HistoryRow = HistoryRow(cls: string, correct: bool, before: Standing, after: Standing)

  datatype Ledger = Ledger(rows: map<string, Standing>, history: seq<HistoryRow>)

  const EMPTY_LEDGER := Ledger(map[], [])

  /** A class without a row stands at the safe default. */
  function StandingOf(ledger: Ledger, cls: string): Standing {
    if cls in ledger.rows then ledger.rows[cls] else SAFE_DEFAULT
  }

  function Moved(before: Standing, correct: bool): Standing {
    if !correct then SAFE_DEFAULT
    else Standing(before.promoted || before.streak + 1 >= PROMOTION_STREAK, before.streak + 1)
  }

  function Recorded(ledger: Ledger, cls: string, correct: bool): Ledger {
    var before := StandingOf(ledger, cls);
    var after := Moved(before, correct);
    Ledger(ledger.rows[cls := after], ledger.history + [HistoryRow(cls, correct, before, after)])
  }

  /** A reset is logged even when there was nothing to reset. */
  function Reset(ledger: Ledger, cls: string): Ledger {
    var before := StandingOf(ledger, cls);
    Ledger(if before != SAFE_DEFAULT then ledger.rows[cls := SAFE_DEFAULT] else ledger.rows,
           ledger.history + [HistoryRow(cls, false, before, SAFE_DEFAULT)])
  }

  class LadderTable {
    var rows: map<string, Standing>
    var history: seq<HistoryRow>

    ghost function Contents(): Ledger
      reads this
    {
      Ledger(rows, history)
    }

    constructor ()
      ensures Contents() == EMPTY_LEDGER
    {
      rows, history := map[], [];
    }

    method RecordOutcome(cls: string, correct: bool) returns (before: Standing, after: Standing)
      modifies this
      ensures Contents() == Recorded(old(Contents()), cls, correct)
      ensures before == StandingOf(old(Contents()), cls) && after == StandingOf(Contents(), cls)
    {
      before := if cls in rows then rows[cls] else SAFE_DEFAULT;
      var promoted, streak := before.promoted, before.streak;
      if correct {
        streak := streak + 1;
        if streak >= PROMOTION_STREAK {
          promoted := true;
        }
      } else {
        streak, promoted := 0, false;
      }
      after := Standing(promoted, streak);
      rows := rows[cls := after];
      history := history + [HistoryRow(cls, correct, before, after)];
    }

    method ResetToSafeDefault(cls: string)
      modifies this
      ensures Contents() == Reset(old(Contents()), cls)
    {
      var before := if cls in rows then rows[cls] else SAFE_DEFAULT;
      if before.promoted || before.streak != 0 {
        rows := rows[cls := SAFE_DEFAULT];
      }
      history := history + [HistoryRow(cls, false, before, SAFE_DEFAULT)];
    }
  }

  // --- what the history says ---

  /** Length of the run of correct rows of a class that ends the history rows from..n. */
  function TrailingRun(history: seq<HistoryRow>, from: nat, n: nat, cls: string): nat
    requires n <= |history|
  {
    if n <= from then 0
    else if history[n - 1].cls != cls then TrailingRun(history, from, n - 1, cls)
    else if history[n - 1].correct then TrailingRun(history, from, n - 1, cls) + 1
    else 0
  }

  /** What the last of the first n rows of a class left behind. */
  function LastAfter(history: seq<HistoryRow>, n: nat, cls: string): Standing
    requires n <= |history|
  {
    if n == 0 then SAFE_DEFAULT
    else if history[n - 1].cls == cls then history[n - 1].after
    else LastAfter(history, n - 1, cls)
  }

  /** The stored standing of every class is the replay of its history. */
  ghost predicate IsReplay(ledger: Ledger) {
    forall cls ::
      var run := TrailingRun(ledger.history, 0, |ledger.history|, cls);
      StandingOf(ledger, cls) == Standing(run >= PROMOTION_STREAK, run)
  }

  /** Consecutive rows of a class chain, and the stored standing is where the chain ends. */
  ghost predicate Chains(ledger: Ledger) {
    && (forall i {:trigger ledger.history[i]} :: 0 <= i < |ledger.history| ==>
          ledger.history[i].before == LastAfter(ledger.history, i, ledger.history[i].cls))
    && (forall cls :: StandingOf(ledger, cls) == LastAfter(ledger.history, |ledger.history|, cls))
  }

  ghost predicate Sound(ledger: Ledger) {
    IsReplay(ledger) && Chains(ledger)
  }

  lemma {:induction false} RunOfPrefix(history: seq<HistoryRow>, row: HistoryRow, from: nat, n: nat, cls: string)
    requires n <= |history|
    ensures TrailingRun(history + [row], from, n, cls) == TrailingRun(history, from, n, cls)
    ensures LastAfter(history + [row], n, cls) == LastAfter(history, n, cls)
  {
    if n > 0 {
      RunOfPrefix(history, row, from, n - 1, cls);
    }
  }

  /** A row that records the standing of its class before it and the move after it, and changes no other class. */
  ghost predicate FitsOnto(ledger: Ledger, row: HistoryRow, rows: map<string, Standing>) {
    && row.before == StandingOf(ledger, row.cls) && row.after == Moved(row.before, row.correct)
    && forall cls ::
         StandingOf(Ledger(rows, ledger.history + [row]), cls) == if cls == row.cls then row.after else StandingOf(ledger, cls)
  }

  lemma {:induction false} RowKeepsReplay(ledger: Ledger, row: HistoryRow, rows: map<string, Standing>)
    requires IsReplay(ledger) && FitsOnto(ledger, row, rows)
    ensures IsReplay(Ledger(rows, ledger.history + [row]))
  {
    var n := |ledger.history|;
    var longer := Ledger(rows, ledger.history + [row]);
    forall cls
      ensures var run := TrailingRun(longer.history, 0, n + 1, cls);
              StandingOf(longer, cls) == Standing(run >= PROMOTION_STREAK, run)
    {
      RunOfPrefix(ledger.history, row, 0, n, cls);
      assert StandingOf(ledger, cls).streak == TrailingRun(ledger.history, 0, n, cls);
    }
  }

  lemma {:induction false} RowKeepsChains(ledger: Ledger, row: HistoryRow, rows: map<string, Standing>)
    requires Chains(ledger) && FitsOnto(ledger, row, rows)
    ensures Chains(Ledger(rows, ledger.history + [row]))
  {
    var n := |ledger.history|;
    var longer := Ledger(rows, ledger.history + [row]);
    forall cls
      ensures StandingOf(longer, cls) == LastAfter(longer.history, n + 1, cls)
    {
      RunOfPrefix(ledger.history, row, 0, n, cls);
    }
    forall i | 0 <= i < n + 1
      ensures longer.history[i].before == LastAfter(longer.history, i, longer.history[i].cls)
    {
      RunOfPrefix(ledger.history, row, 0, i, longer.history[i].cls);
    }
  }

  lemma {:induction false} RecordKeepsSound(ledger: Ledger, cls: string, correct: bool)
    requires Sound(ledger)
    ensures Sound(Recorded(ledger, cls, correct))
  {
    var before := StandingOf(ledger, cls);
    var row := HistoryRow(cls, correct, before, Moved(before, correct));
    RowKeepsReplay(ledger, row, ledger.rows[cls := row.after]);
    RowKeepsChains(ledger, row, ledger.rows[cls := row.after]);
  }

  lemma {:induction false} ResetKeepsSound(ledger: Ledger, cls: string)
    requires Sound(ledger)
    ensures Sound(Reset(ledger, cls))
  {
    var row := HistoryRow(cls, false, StandingOf(ledger, cls), SAFE_DEFAULT);
    RowKeepsReplay(ledger, row, Reset(ledger, cls).rows);
    RowKeepsChains(ledger, row, Reset(ledger, cls).rows);
  }

  // --- what was earned since a point in the history ---

  /** A ledger that only appended to the history of another. */
  ghost predicate Extends(longer: Ledger, ledger: Ledger) {
    ledger.history <= longer.history
  }

  lemma {:induction false} RunRestarts(history: seq<HistoryRow>, from: nat, n: nat, cls: string)
    requires from <= n <= |history| && TrailingRun(history, 0, from, cls) == 0
    ensures TrailingRun(history, 0, n, cls) == TrailingRun(history, from, n, cls)
  {
    if from < n {
      RunRestarts(history, from, n - 1, cls);
    }
  }

  lemma {:induction false} RunOfLonger(history: seq<HistoryRow>, longer: seq<HistoryRow>, n: nat, cls: string)
    requires n <= |history| && history <= longer
    ensures TrailingRun(longer, 0, n, cls) == TrailingRun(history, 0, n, cls)
  {
    if n > 0 {
      RunOfLonger(history, longer, n - 1, cls);
    }
  }

  /** From a class at the safe default, only five correct outcomes in a row logged since then lead to promotion. */
  lemma {:induction false} EarnedSince(ledger: Ledger, later: Ledger, cls: string)
    requires Sound(ledger) && Sound(later) && Extends(later, ledger)
    requires StandingOf(ledger, cls) == SAFE_DEFAULT
    ensures StandingOf(later, cls).promoted
       <==> TrailingRun(later.history, |ledger.history|, |later.history|, cls) >= PROMOTION_STREAK
  {
    RunOfLonger(ledger.history, later.history, |ledger.history|, cls);
    RunRestarts(later.history, |ledger.history|, |later.history|, cls);
  }
}
