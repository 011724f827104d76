/**
 The plan builders of run_batch_plan.py: the shuffled plan, which pairs distinct
 classes at random until one class is left and then drains it, and the plan read
 from a list of pairs.
 */
module ShuffledPlan {

  /** One entry of the plan: this many episodes of this class, one after the other. */
  datatype Chunk = Chunk(cls: string, target: nat)

  /** Episodes of a class in a plan. */
  function TotalOf(plan: seq<Chunk>, cls: string): nat {
    if plan == [] then 0
    else TotalOf(plan[..|plan| - 1], cls) + (if plan[|plan| - 1].cls == cls then plan[|plan| - 1].target else 0)
  }

  /** Episodes of all classes in a plan. */
  function Total(plan: seq<Chunk>): nat {
    if plan == [] then 0 else Total(plan[..|plan| - 1]) + plan[|plan| - 1].target
  }

  /** Single episodes in adjacent pairs of distinct classes. */
  ghost predicate InPairs(plan: seq<Chunk>) {
    && |plan| % 2 == 0
    && (forall i :: 0 <= i < |plan| ==> plan[i].target == 1)
    && (forall i {:trigger plan[i].cls} :: 0 <= i < |plan| && i % 2 == 0 ==> plan[i].cls != plan[i + 1].cls)
  }

  function Budget(counts: map<string, int>, cls: string): nat {
    if cls in counts && counts[cls] > 0 then counts[cls] else 0
  }

  lemma {:induction false} AddChunk(plan: seq<Chunk>, chunk: Chunk)
    ensures Total(plan + [chunk]) == Total(plan) + chunk.target
    ensures forall cls :: TotalOf(plan + [chunk], cls) == TotalOf(plan, cls) + (if chunk.cls == cls then chunk.target else 0)
  {
    assert (plan + [chunk])[..|plan|] == plan;
  }

  // --- how much budget is left, over all classes ---

  ghost function BudgetLeft(remaining: map<string, int>): nat
    requires forall cls :: cls in remaining ==> remaining[cls] > 0
  {
    if remaining == map[] then 0
    else
      var cls :| cls in remaining;
      remaining[cls] + BudgetLeft(remaining - {cls})
  }

  lemma {:induction false} BudgetSplit(remaining: map<string, int>, cls: string)
    requires forall c :: c in remaining ==> remaining[c] > 0
    requires cls in remaining
    ensures BudgetLeft(remaining) == remaining[cls] + BudgetLeft(remaining - {cls})
  {
    var first :| first in remaining && BudgetLeft(remaining) == remaining[first] + BudgetLeft(remaining - {first});
    if first != cls {
      BudgetSplit(remaining - {first}, cls);
      BudgetSplit(remaining - {cls}, first);
      assert remaining - {first} - {cls} == remaining - {cls} - {first};
    }
  }

  /** One episode of cls spent: its count goes down by one and the class disappears at zero. */
  function Spend(remaining: map<string, int>, cls: string): map<string, int>
    requires cls in remaining
  {
    if remaining[cls] <= 1 then remaining - {cls} else remaining[cls := remaining[cls] - 1]
  }

  lemma {:induction false} SpendOne(remaining: map<string, int>, cls: string)
    requires forall c :: c in remaining ==> remaining[c] > 0
    requires cls in remaining
    ensures forall c :: c in Spend(remaining, cls) ==> Spend(remaining, cls)[c] > 0
    ensures BudgetLeft(Spend(remaining, cls)) == BudgetLeft(remaining) - 1
  {
    BudgetSplit(remaining, cls);
    if remaining[cls] > 1 {
      BudgetSplit(Spend(remaining, cls), cls);
      assert Spend(remaining, cls) - {cls} == remaining - {cls};
    }
  }

  // --- the builders ---

  function Positive(counts: map<string, int>): map<string, int> {
    map cls | cls in counts && counts[cls] > 0 :: counts[cls]
  }

  /** Pairs come first, so a chunk that is left over is the last of an odd number. */
  function PairedLength(plan: seq<Chunk>): (n: nat)
    ensures n % 2 == 0 && n <= |plan| <= n + 1
  {
    |plan| - |plan| % 2
  }

  /** A plan that spends exactly the requested counts: pairs first, then at most one chunk of a single class. */
  ghost predicate Shuffled(counts: map<string, int>, plan: seq<Chunk>) {
    var paired := PairedLength(plan);
    && InPairs(plan[..paired])
    && (|plan| > paired ==> plan[paired].target > 0)
    && (forall cls :: TotalOf(plan, cls) == Budget(counts, cls))
    && Total(plan) == BudgetLeft(Positive(counts))
  }

  /** What the pairing loop keeps: whole pairs, and every episode is either planned or still in the budget. */
  ghost predicate Pairing(counts: map<string, int>, plan: seq<Chunk>, remaining: map<string, int>)
    requires forall c :: c in remaining ==> remaining[c] > 0
  {
    && InPairs(plan)
    && (forall cls :: TotalOf(plan, cls) + Budget(remaining, cls) == Budget(counts, cls))
    && Total(plan) + BudgetLeft(remaining) == BudgetLeft(Positive(counts))
  }

  lemma {:induction false} PairSpent(counts: map<string, int>, plan: seq<Chunk>, remaining: map<string, int>,
      first: string, second: string)
    requires forall c :: c in remaining ==> remaining[c] > 0
    requires Pairing(counts, plan, remaining) && first in remaining && second in remaining && first != second
    ensures var spent := Spend(Spend(remaining, first), second);
            && (forall c :: c in spent ==> spent[c] > 0)
            && Pairing(counts, plan + [Chunk(first, 1)] + [Chunk(second, 1)], spent)
            && BudgetLeft(spent) < BudgetLeft(remaining)
  {
    SpendOne(remaining, first);
    SpendOne(Spend(remaining, first), second);
    AddChunk(plan, Chunk(first, 1));
    AddChunk(plan + [Chunk(first, 1)], Chunk(second, 1));
    AddPair(plan, first, second);
    var longer, spent := plan + [Chunk(first, 1)] + [Chunk(second, 1)], Spend(Spend(remaining, first), second);
    forall cls
      ensures TotalOf(longer, cls) + Budget(spent, cls) == Budget(counts, cls)
    {
      assert TotalOf(plan, cls) + Budget(remaining, cls) == Budget(counts, cls);
    }
  }

  lemma {:induction false} AddPair(plan: seq<Chunk>, first: string, second: string)
    requires InPairs(plan) && first != second
    ensures InPairs(plan + [Chunk(first, 1)] + [Chunk(second, 1)])
  {
    var longer := plan + [Chunk(first, 1)] + [Chunk(second, 1)];
    forall i {:trigger longer[i].cls} | 0 <= i < |longer| && i % 2 == 0
      ensures longer[i].cls != longer[i + 1].cls
    {
      if i < |plan| {
        assert plan[i].cls != plan[i + 1].cls;
      }
    }
  }

  /** A run of pairs is empty or ends in a pair. */
  lemma {:induction false} LastPair(plan: seq<Chunk>)
    requires InPairs(plan) && plan != []
    ensures |plan| >= 2
    ensures var rest, first, second := plan[..|plan| - 2], plan[|plan| - 2].cls, plan[|plan| - 1].cls;
            InPairs(rest) && first != second && plan == rest + [Chunk(first, 1)] + [Chunk(second, 1)]
  {
    var n := |plan|;
    var rest := plan[..n - 2];
    assert plan[n - 2].cls != plan[n - 2 + 1].cls;
    forall i {:trigger rest[i].cls} | 0 <= i < |rest| && i % 2 == 0
      ensures rest[i].cls != rest[i + 1].cls
    {
      assert plan[i].cls != plan[i + 1].cls;
    }
  }

  method BuildShuffledPlan(counts: map<string, int>) returns (plan: seq<Chunk>)
    ensures Shuffled(counts, plan)
  {
    var remaining := Positive(counts);
    plan := [];
    while |remaining| >= 2
      invariant forall c :: c in remaining ==> remaining[c] > 0
      invariant Pairing(counts, plan, remaining)
      decreases BudgetLeft(remaining)
    {
      var first :| first in remaining;
      AnotherKey(remaining, first);
      var second :| second in remaining && second != first;
      PairSpent(counts, plan, remaining, first, second);
      plan := plan + [Chunk(first, 1)] + [Chunk(second, 1)];
      remaining := SpendPair(remaining, first, second);
    }
    Drained(counts, plan, remaining);
    if |remaining| == 1 {
      var last :| last in remaining;
      OnlyKey(remaining, last);
      plan := plan + [Chunk(last, remaining[last])];
    }
  }

  /** Both classes of a pair lose one episode before either is dropped at zero. */
  method SpendPair(remaining: map<string, int>, first: string, second: string) returns (spent: map<string, int>)
    requires first in remaining && second in remaining && first != second
    ensures spent == Spend(Spend(remaining, first), second)
  {
    spent := remaining[first := remaining[first] - 1];
    spent := spent[second := spent[second] - 1];
    if spent[first] <= 0 {
      spent := spent - {first};
    }
    if spent[second] <= 0 {
      spent := spent - {second};
    }
  }

  lemma {:induction false} Drained(counts: map<string, int>, plan: seq<Chunk>, remaining: map<string, int>)
    requires forall c :: c in remaining ==> remaining[c] > 0
    requires Pairing(counts, plan, remaining) && |remaining| <= 1
    ensures remaining == map[] ==> Shuffled(counts, plan)
    ensures forall last :: last in remaining ==> Shuffled(counts, plan + [Chunk(last, remaining[last])])
  {
    assert plan[..|plan|] == plan;
    forall last | last in remaining
      ensures Shuffled(counts, plan + [Chunk(last, remaining[last])])
    {
      OnlyKey(remaining, last);
      AddChunk(plan, Chunk(last, remaining[last]));
      assert (plan + [Chunk(last, remaining[last])])[..|plan|] == plan;
    }
  }

  lemma {:induction false} AnotherKey(remaining: map<string, int>, first: string)
    requires first in remaining && |remaining| >= 2
    ensures exists second :: second in remaining && second != first
  {
    assert |remaining.Keys - {first}| >= 1;
    var second :| second in remaining.Keys - {first};
  }

  lemma {:induction false} OnlyKey(remaining: map<string, int>, last: string)
    requires forall c :: c in remaining ==> remaining[c] > 0
    requires |remaining| == 1 && last in remaining
    ensures forall cls :: cls in remaining ==> cls == last
    ensures BudgetLeft(remaining) == remaining[last]
  {
    assert |remaining.Keys - {last}| == 0;
    assert forall cls :: cls in remaining ==> cls == last || cls in remaining.Keys - {last};
    BudgetSplit(remaining, last);
    assert remaining - {last} == map[];
  }

  /** Each pair of the file becomes two single-episode chunks, in order. */
  method PairsFileToPlan(pairs: seq<(string, string)>) returns (plan: seq<Chunk>)
    ensures |plan| == 2 * |pairs|
    ensures forall i :: 0 <= i < |pairs| ==> plan[2 * i] == Chunk(pairs[i].0, 1) && plan[2 * i + 1] == Chunk(pairs[i].1, 1)
    ensures Total(plan) == |plan|
  {
    plan := [];
    for i := 0 to |pairs|
      invariant |plan| == 2 * i
      invariant forall j :: 0 <= j < i ==> plan[2 * j] == Chunk(pairs[j].0, 1) && plan[2 * j + 1] == Chunk(pairs[j].1, 1)
      invariant Total(plan) == |plan|
    {
      AddChunk(plan, Chunk(pairs[i].0, 1));
      AddChunk(plan + [Chunk(pairs[i].0, 1)], Chunk(pairs[i].1, 1));
      plan := plan + [Chunk(pairs[i].0, 1)] + [Chunk(pairs[i].1, 1)];
    }
  }

  // --- what every random run shares ---

  /** In a run of pairs, no class takes more than half of the episodes. */
  lemma {:induction false} PairsShareEvenly(plan: seq<Chunk>, cls: string)
    requires InPairs(plan)
    ensures Total(plan) == |plan| && 2 * TotalOf(plan, cls) <= |plan|
  {
    if plan != [] {
      LastPair(plan);
      var rest, first, second := plan[..|plan| - 2], plan[|plan| - 2].cls, plan[|plan| - 1].cls;
      PairsShareEvenly(rest, cls);
      AddChunk(rest, Chunk(first, 1));
      AddChunk(rest + [Chunk(first, 1)], Chunk(second, 1));
    }
  }

  function TailSize(plan: seq<Chunk>): nat
  {
    if |plan| > PairedLength(plan) then plan[PairedLength(plan)].target else 0
  }

  /**
   The chunk left at the end has the parity of the total, and is at least what the
   largest class has in excess of all the others together.
   */
  lemma {:induction false} TailBounds(counts: map<string, int>, plan: seq<Chunk>, cls: string)
    requires Shuffled(counts, plan)
    ensures TailSize(plan) % 2 == BudgetLeft(Positive(counts)) % 2
    ensures TailSize(plan) >= 2 * Budget(counts, cls) - BudgetLeft(Positive(counts))
  {
    var paired := PairedLength(plan);
    PairsShareEvenly(plan[..paired], cls);
    if |plan| > paired {
      AddChunk(plan[..paired], plan[paired]);
      assert plan == plan[..paired] + [plan[paired]];
    } else {
      assert plan == plan[..paired];
    }
  }

  lemma {:induction false} Appears(plan: seq<Chunk>, i: nat)
    requires i < |plan|
    ensures TotalOf(plan, plan[i].cls) >= plan[i].target
  {
    if i < |plan| - 1 {
      Appears(plan[..|plan| - 1], i);
    }
  }

  lemma {:induction false} TwoClassesAlternate(plan: seq<Chunk>, a: string, b: string)
    requires InPairs(plan) && a != b && forall i :: 0 <= i < |plan| ==> plan[i].cls == a || plan[i].cls == b
    ensures TotalOf(plan, a) == TotalOf(plan, b)
  {
    if plan != [] {
      LastPair(plan);
      var rest, first, second := plan[..|plan| - 2], plan[|plan| - 2].cls, plan[|plan| - 1].cls;
      TwoClassesAlternate(rest, a, b);
      AddChunk(rest, Chunk(first, 1));
      AddChunk(rest + [Chunk(first, 1)], Chunk(second, 1));
    }
  }

  /** With two classes nothing is left to chance: the tail is the difference of their budgets. */
  lemma {:induction false} TwoClassesLeaveTheDifference(counts: map<string, int>, plan: seq<Chunk>, a: string,
      b: string)
    requires Shuffled(counts, plan)
    requires a != b && Budget(counts, a) >= Budget(counts, b)
    requires forall cls :: cls in counts && counts[cls] > 0 ==> cls == a || cls == b
    ensures TailSize(plan) == Budget(counts, a) - Budget(counts, b)
  {
    var paired := PairedLength(plan);
    forall i | 0 <= i < |plan|
      ensures plan[i].cls == a || plan[i].cls == b
    {
      Appears(plan, i);
      assert plan[i].target > 0 by {
        if i < paired {
          assert plan[..paired][i].target == 1;
        }
      }
    }
    TwoClassesAlternate(plan[..paired], a, b);
    if |plan| > paired {
      AddChunk(plan[..paired], plan[paired]);
      assert plan == plan[..paired] + [plan[paired]];
    } else {
      assert plan == plan[..paired];
    }
  }
}
