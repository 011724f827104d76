/**
 The rolling-overlap round generator of phase_d_generate_sample_rounds.py.

 Every random choice of the source is an arbitrary choice here, so what is proved
 holds for every seed. The seen-count weights only bias the choice and are dropped
 from the picks; the counts themselves are kept.
 */
module RoundPlanner {
  import opened Options

  const ROUND_SIZE_CYCLE := [24, 25]

  function Min(a: int, b: int): int { if a <= b then a else b }

  function Max(a: int, b: int): int { if a >= b then a else b }

  function CycleSize(i: nat): nat {
    ROUND_SIZE_CYCLE[i % |ROUND_SIZE_CYCLE|]
  }

  // --- lists without repetition ---

  function Elements<T>(s: seq<T>): set<T> {
    set x | x in s
  }

  /** Every element occurs once. */
  ghost predicate NoRepeats<T>(s: seq<T>) {
    forall x :: x in s ==> multiset(s)[x] == 1
  }

  lemma {:induction false} ElementsOfJoin<T>(a: seq<T>, b: seq<T>)
    ensures Elements(a + b) == Elements(a) + Elements(b)
  {
    assert forall x :: x in a + b <==> x in a || x in b;
  }

  lemma {:induction false} CountElements<T>(s: seq<T>)
    requires NoRepeats(s)
    ensures |Elements(s)| == |s|
  {
    if s != [] {
      var init, last := s[..|s| - 1], s[|s| - 1];
      assert s == init + [last];
      forall x | x in init
        ensures multiset(init)[x] == 1
      {
        assert x in s;
      }
      assert last !in init by {
        assert last in s;
      }
      CountElements(init);
      assert Elements(s) == Elements(init) + {last};
    }
  }

  lemma {:induction false} JoinNoRepeats<T>(a: seq<T>, b: seq<T>)
    requires NoRepeats(a) && NoRepeats(b) && Elements(a) !! Elements(b)
    ensures NoRepeats(a + b) && Elements(a + b) == Elements(a) + Elements(b)
  {
    forall x | x in a + b
      ensures multiset(a + b)[x] == 1
    {
      assert x in a ==> x in Elements(a);
      assert x in b ==> x in Elements(b);
    }
  }

  lemma {:induction false} PartNoRepeats<T>(part: seq<T>, whole: seq<T>)
    requires multiset(part) <= multiset(whole)
    ensures Elements(part) <= Elements(whole)
    ensures NoRepeats(whole) ==> NoRepeats(part)
  {
    forall x | x in part
      ensures x in whole
    {
      assert multiset(part)[x] > 0;
    }
  }

  // --- random picks ---

  /**
   Picks up to n entries one at a time, each removed from the pool once picked. This
   is _weighted_pick for every weighting, random.sample, and random.shuffle when n is
   the whole length.
   */
  method PickWithoutReplacement<T>(candidates: seq<T>, n: int) returns (picks: seq<T>)
    ensures |picks| == Max(0, Min(n, |candidates|))
    ensures multiset(picks) <= multiset(candidates)
    ensures n >= |candidates| ==> multiset(picks) == multiset(candidates)
    ensures Elements(picks) <= Elements(candidates)
    ensures NoRepeats(candidates) ==> NoRepeats(picks)
  {
    var pool := candidates;
    picks := [];
    while |picks| < Min(n, |candidates|)
      invariant |picks| <= Max(0, Min(n, |candidates|))
      invariant |pool| + |picks| == |candidates|
      invariant multiset(pool) + multiset(picks) == multiset(candidates)
    {
      var i :| 0 <= i < |pool|;
      assert pool == pool[..i] + [pool[i]] + pool[i + 1..];
      picks := picks + [pool[i]];
      pool := pool[..i] + pool[i + 1..];
    }
    PartNoRepeats(picks, candidates);
  }

  method Shuffle<T>(list: seq<T>) returns (shuffled: seq<T>)
    ensures multiset(shuffled) == multiset(list) && |shuffled| == |list|
    ensures Elements(shuffled) == Elements(list)
    ensures NoRepeats(list) ==> NoRepeats(shuffled)
  {
    shuffled := PickWithoutReplacement(list, |list|);
    PartNoRepeats(list, shuffled);
  }

  /** list(a set), in an order nothing depends on. */
  method ListOf<T(==)>(s: set<T>) returns (list: seq<T>)
    ensures NoRepeats(list) && Elements(list) == s && |list| == |s|
  {
    list := [];
    var rest := s;
    while rest != {}
      invariant rest <= s && NoRepeats(list) && Elements(list) == s - rest && |list| == |s| - |rest|
      decreases rest
    {
      var x :| x in rest;
      JoinNoRepeats(list, [x]);
      list, rest := list + [x], rest - {x};
    }
  }

  /** [p for p in all_pairs if p not in excluded] */
  method Without<T(==)>(all: seq<T>, excluded: set<T>) returns (kept: seq<T>)
    ensures Elements(kept) == Elements(all) - excluded
    ensures NoRepeats(all) ==> NoRepeats(kept)
  {
    kept := [];
    for i := 0 to |all|
      invariant Elements(kept) == Elements(all[..i]) - excluded
      invariant multiset(kept) <= multiset(all[..i])
    {
      assert all[..i + 1] == all[..i] + [all[i]];
      ElementsOfJoin(all[..i], [all[i]]);
      ElementsOfJoin(kept, [all[i]]);
      if all[i] !in excluded {
        kept := kept + [all[i]];
      }
    }
    assert all[..|all|] == all;
    PartNoRepeats(kept, all);
  }

  // --- one round ---

  lemma {:induction false} SubsetSize<T>(part: set<T>, whole: set<T>)
    requires part <= whole
    ensures |part| <= |whole| && |whole - part| == |whole| - |part|
  {
    assert whole == part + (whole - part);
  }

  /** Fills a round up to the cycle size with pairs it does not hold yet. */
  method FillUp<T(==)>(all: seq<T>, chosen: seq<T>, size: nat) returns (round: seq<T>)
    requires Elements(chosen) <= Elements(all)
    ensures Elements(chosen) <= Elements(round) <= Elements(all)
    ensures NoRepeats(all) && NoRepeats(chosen) ==> NoRepeats(round) && |round| == Max(Min(size, |all|), |chosen|)
  {
    round := chosen;
    if |chosen| < size {
      var candidates := Without(all, Elements(chosen));
      var fill := PickWithoutReplacement(candidates, size - |chosen|);
      ElementsOfJoin(chosen, fill);
      round := chosen + fill;
      if NoRepeats(all) && NoRepeats(chosen) {
        CandidatesLeft(all, chosen, candidates);
        JoinNoRepeats(chosen, fill);
      }
    } else if NoRepeats(all) && NoRepeats(chosen) {
      CountElements(all);
      CountElements(chosen);
      SubsetSize(Elements(chosen), Elements(all));
    }
  }

  lemma {:induction false} CandidatesLeft<T>(all: seq<T>, chosen: seq<T>, candidates: seq<T>)
    requires NoRepeats(all) && NoRepeats(chosen) && NoRepeats(candidates)
    requires Elements(chosen) <= Elements(all) && Elements(candidates) == Elements(all) - Elements(chosen)
    ensures |candidates| == |all| - |chosen|
  {
    CountElements(all);
    CountElements(chosen);
    CountElements(candidates);
    SubsetSize(Elements(chosen), Elements(all));
  }

  /** The round of the safety net: every uncovered pair, then repeats up to the cycle size. */
  method LastRound<T(==)>(all: seq<T>, covered: set<T>, size: nat) returns (round: seq<T>)
    requires covered <= Elements(all)
    ensures Elements(all) - covered <= Elements(round) <= Elements(all)
    ensures NoRepeats(all) ==> NoRepeats(round) && |round| == Max(Min(size, |all|), |Elements(all) - covered|)
  {
    var uncovered := ListOf(Elements(all) - covered);
    var shuffled := Shuffle(uncovered);
    round := FillUp(all, shuffled, size);
  }

  method FirstRound<T(==)>(all: seq<T>, size: nat) returns (round: seq<T>)
    ensures Elements(round) <= Elements(all)
    ensures NoRepeats(all) ==> NoRepeats(round) && |round| == Min(size, |all|)
    ensures NoRepeats(all) ==> |Elements(all) - Elements(round)| == |all| - |round|
  {
    round := PickWithoutReplacement(all, size);
    if NoRepeats(all) {
      CountElements(all);
      CountElements(round);
      SubsetSize(Elements(round), Elements(all));
    }
  }

  /**
   A middle round: half of the cycle size carried over from the round before, then
   uncovered pairs, then repeats for what is still missing.
   */
  method MiddleRound<T(==)>(all: seq<T>, covered: set<T>, previous: seq<T>, size: nat) returns (round: seq<T>)
    requires covered <= Elements(all) && Elements(previous) <= covered
    ensures Elements(round) <= Elements(all)
    ensures NoRepeats(all) && NoRepeats(previous) && (|previous| < size / 2 ==> covered == Elements(all))
            ==> RollsOver(all, covered, previous, size, round)
  {
    var carried := PickWithoutReplacement(previous, Min(size / 2, |previous|));
    var uncovered := ListOf(Elements(all) - covered);
    var shuffled := Shuffle(uncovered);
    var taken := shuffled[..Min(size - size / 2, |shuffled|)];
    TakenPart(uncovered, shuffled, |taken|);
    ElementsOfJoin(carried, taken);
    round := FillUp(all, carried + taken, size);
    if NoRepeats(all) && NoRepeats(previous) && (|previous| < size / 2 ==> covered == Elements(all)) {
      CarriedAndTaken(all, carried, taken);
      CountElements(round);
      CountElements(all);
      CountElements(previous);
      RollOverSets(Elements(all), covered, Elements(previous), Elements(carried), Elements(taken), Elements(round), size);
    }
  }

  /** What a middle round promises, given lists without repetition to work from. */
  ghost predicate RollsOver<T>(all: seq<T>, covered: set<T>, previous: seq<T>, size: nat, round: seq<T>) {
    && NoRepeats(round)
    && |round| == Min(size, |all|)
    && |Elements(round) * Elements(previous)| >= Min(size / 2, |previous|)
    && |Elements(all) - covered - Elements(round)| == Max(0, |Elements(all) - covered| - (size - size / 2))
  }

  lemma {:induction false} TakenPart<T>(uncovered: seq<T>, shuffled: seq<T>, n: nat)
    requires NoRepeats(uncovered) && multiset(shuffled) == multiset(uncovered) && n <= |shuffled|
    ensures NoRepeats(shuffled[..n]) && Elements(shuffled[..n]) <= Elements(uncovered)
  {
    assert shuffled == shuffled[..n] + shuffled[n..];
    PartNoRepeats(shuffled[..n], uncovered);
  }

  lemma {:induction false} CarriedAndTaken<T>(all: seq<T>, carried: seq<T>, taken: seq<T>)
    requires NoRepeats(all) && NoRepeats(carried) && NoRepeats(taken)
    requires Elements(carried) !! Elements(taken) && Elements(carried) + Elements(taken) <= Elements(all)
    ensures NoRepeats(carried + taken)
    ensures |Elements(carried)| == |carried| && |Elements(taken)| == |taken| && |carried| + |taken| <= |all|
  {
    JoinNoRepeats(carried, taken);
    CountElements(all);
    CountElements(carried);
    CountElements(taken);
    SubsetSize(Elements(carried) + Elements(taken), Elements(all));
  }

  /**
   The counting behind a middle round: only the taken pairs are new, because repeats are added only
   when nothing is left.
   */
  lemma {:induction false} RollOverSets<T>(all: set<T>, covered: set<T>, previous: set<T>, carried: set<T>,
      taken: set<T>, round: set<T>, size: nat)
    requires carried <= previous <= covered <= all && taken <= all - covered && carried + taken <= round <= all
    requires |carried| == Min(size / 2, |previous|) && (|carried| < size / 2 ==> covered == all)
    requires |taken| == Min(size - size / 2, |all - covered|)
    requires |round| == Max(Min(size, |all|), |carried + taken|)
    ensures |round| == Min(size, |all|)
    ensures |round * previous| >= |carried|
    ensures |all - covered - round| == Max(0, |all - covered| - (size - size / 2))
  {
    SubsetSize(carried, round * previous);
    UncoveredAfter(all, covered, carried, taken, round);
  }

  lemma {:induction false} UncoveredAfter<T>(all: set<T>, covered: set<T>, carried: set<T>, taken: set<T>,
      round: set<T>)
    requires carried <= covered <= all && taken <= all - covered && carried + taken <= round <= all
    requires |taken| < |all - covered| ==> |round| <= |carried + taken|
    ensures |carried + taken| == |carried| + |taken| && |carried + taken| <= |all|
    ensures |all - covered - round| == |all - covered| - |taken|
  {
    SubsetSize(carried + taken, all);
    SubsetSize(taken, all - covered);
    if |taken| == |all - covered| {
      SameSize(taken, all - covered);
      assert all - covered - round == {};
    } else {
      SubsetSize(carried + taken, round);
      SameSize(carried + taken, round);
      assert all - covered - round == all - covered - taken;
    }
  }

  lemma {:induction false} SameSize<T>(part: set<T>, whole: set<T>)
    requires part <= whole && |part| == |whole|
    ensures part == whole
  {
    SubsetSize(part, whole);
    assert whole - part == {};
  }

  // --- the whole plan ---

  /** Pairs of all that no earlier round holds when round i is about to be drawn. */
  function UncoveredBefore(pairs: nat, i: nat): nat {
    if i == 0 then pairs
    else if i == 1 then Max(0, pairs - CycleSize(0))
    else Max(0, UncoveredBefore(pairs, i - 1) - (CycleSize(i - 1) - CycleSize(i - 1) / 2))
  }

  function RoundSize(pairs: nat, i: nat, n: int): nat {
    var usual := Min(CycleSize(i), pairs);
    if i == n - 1 then Max(usual, UncoveredBefore(pairs, i)) else usual
  }

  /** The pairs that the first k rounds hold. */
  function CoveredBy<T>(rounds: seq<seq<T>>, k: nat): set<T>
    requires k <= |rounds|
  {
    if k == 0 then {} else CoveredBy(rounds, k - 1) + Elements(rounds[k - 1])
  }

  /** How often p was drawn in the first k rounds. */
  ghost function TimesDrawn<T>(rounds: seq<seq<T>>, k: nat, p: T): nat
    requires k <= |rounds|
  {
    if k == 0 then 0 else TimesDrawn(rounds, k - 1, p) + multiset(rounds[k - 1])[p]
  }

  /** Earlier rounds are not affected by later ones. */
  lemma {:induction false} FirstRounds<T>(rounds: seq<seq<T>>, longer: seq<seq<T>>, k: nat)
    requires k <= |rounds| && rounds <= longer
    ensures CoveredBy(longer, k) == CoveredBy(rounds, k)
  {
    if k > 0 {
      FirstRounds(rounds, longer, k - 1);
    }
  }

  lemma {:induction false} FirstDraws<T>(rounds: seq<seq<T>>, longer: seq<seq<T>>, k: nat, p: T)
    requires k <= |rounds| && rounds <= longer
    ensures TimesDrawn(longer, k, p) == TimesDrawn(rounds, k, p)
  {
    if k > 0 {
      FirstDraws(rounds, longer, k - 1, p);
    }
  }

  /** Round i has its size, repeats nothing, carries half of its predecessor, and meets exactly the expected gap. */
  ghost predicate RoundFits<T>(all: seq<T>, rounds: seq<seq<T>>, i: nat, n: int)
    requires i < |rounds|
  {
    && NoRepeats(rounds[i])
    && |rounds[i]| == RoundSize(|all|, i, n)
    && |Elements(all) - CoveredBy(rounds, i)| == UncoveredBefore(|all|, i)
    && (0 < i < n - 1 ==>
          |Elements(rounds[i]) * Elements(rounds[i - 1])| >= Min(CycleSize(i) / 2, |rounds[i - 1]|))
  }

  ghost predicate Planned<T>(all: seq<T>, rounds: seq<seq<T>>, n: int) {
    && |rounds| == Max(0, n)
    && forall i :: 0 <= i < |rounds| ==> RoundFits(all, rounds, i, n)
  }

  lemma {:induction false} UncoveredShrinks(pairs: nat, i: nat)
    requires i >= 1
    ensures UncoveredBefore(pairs, i) <= Max(0, pairs - CycleSize(0))
  {
    if i > 1 {
      UncoveredShrinks(pairs, i - 1);
    }
  }

  /** The rounds drawn so far fit, and the gap they leave is the expected one. */
  ghost predicate OnTrack<T>(all: seq<T>, rounds: seq<seq<T>>, n: int) {
    && (forall i :: 0 <= i < |rounds| ==> RoundFits(all, rounds, i, n))
    && (|rounds| < n ==> |Elements(all) - CoveredBy(rounds, |rounds|)| == UncoveredBefore(|all|, |rounds|))
  }

  /** A round that keeps the plan on track, whatever its order. */
  ghost predicate NextFits<T>(all: seq<T>, rounds: seq<seq<T>>, round: seq<T>, n: int) {
    var i := |rounds|;
    && NoRepeats(round)
    && |round| == RoundSize(|all|, i, n)
    && (i < n - 1 ==> |Elements(all) - CoveredBy(rounds, |rounds|) - Elements(round)| == UncoveredBefore(|all|, i + 1))
    && (0 < i < n - 1 ==> |Elements(round) * Elements(rounds[i - 1])| >= Min(CycleSize(i) / 2, |rounds[i - 1]|))
  }

  lemma {:induction false} StaysOnTrack<T>(all: seq<T>, rounds: seq<seq<T>>, round: seq<T>, shuffled: seq<T>, n: int)
    requires OnTrack(all, rounds, n) && |rounds| < n && NextFits(all, rounds, round, n)
    requires NoRepeats(shuffled) && Elements(shuffled) == Elements(round) && |shuffled| == |round|
    ensures OnTrack(all, rounds + [shuffled], n)
  {
    var longer := rounds + [shuffled];
    forall i | 0 <= i < |longer|
      ensures RoundFits(all, longer, i, n)
    {
      FirstRounds(rounds, longer, i);
      if i < |rounds| {
        assert RoundFits(all, rounds, i, n);
      }
    }
    FirstRounds(rounds, longer, |rounds|);
    assert CoveredBy(longer, |longer|) == CoveredBy(rounds, |rounds|) + Elements(round);
    assert Elements(all) - CoveredBy(longer, |longer|) == Elements(all) - CoveredBy(rounds, |rounds|) - Elements(round);
  }

  /**
   The round before a middle round repeats nothing, and is short of half a cycle size only when
   nothing is uncovered.
   */
  lemma {:induction false} PreviousRoundSuffices<T>(all: seq<T>, rounds: seq<seq<T>>, n: int)
    requires 0 < |rounds| < n - 1 && CoveredBy(rounds, |rounds|) <= Elements(all) && OnTrack(all, rounds, n)
    ensures NoRepeats(rounds[|rounds| - 1])
    ensures |rounds[|rounds| - 1]| < CycleSize(|rounds|) / 2 ==> CoveredBy(rounds, |rounds|) == Elements(all)
    ensures forall round :: (RollsOver(all, CoveredBy(rounds, |rounds|), rounds[|rounds| - 1], CycleSize(|rounds|), round)
                             ==> NextFits(all, rounds, round, n))
  {
    assert RoundFits(all, rounds, |rounds| - 1, n);
    UncoveredShrinks(|all|, |rounds|);
    NothingLeft(Elements(all), CoveredBy(rounds, |rounds|));
  }

  /** The pairs of the next round: safety net, first round or rolling overlap. */
  method DrawRound<T(==)>(all: seq<T>, rounds: seq<seq<T>>, covered: set<T>, n: int) returns (round: seq<T>)
    requires |rounds| < n && covered == CoveredBy(rounds, |rounds|) <= Elements(all)
    requires |rounds| > 0 ==> Elements(rounds[|rounds| - 1]) <= covered
    ensures Elements(round) <= Elements(all)
    ensures |rounds| == n - 1 ==> Elements(all) - covered <= Elements(round)
    ensures NoRepeats(all) && OnTrack(all, rounds, n) ==> NextFits(all, rounds, round, n)
  {
    var i := |rounds|;
    if i == n - 1 {
      round := LastRound(all, covered, CycleSize(i));
    } else if i == 0 {
      round := FirstRound(all, CycleSize(i));
      assert Elements(all) - covered - Elements(round) == Elements(all) - Elements(round);
    } else {
      round := MiddleRound(all, covered, rounds[i - 1], CycleSize(i));
      if NoRepeats(all) && OnTrack(all, rounds, n) {
        PreviousRoundSuffices(all, rounds, n);
      }
    }
  }

  /** The seen count of every pair is the number of times it was drawn. */
  ghost predicate CountsDraws<T>(all: seq<T>, rounds: seq<seq<T>>, seenCount: map<T, nat>) {
    && seenCount.Keys == Elements(all)
    && forall p :: p in all ==> seenCount[p] == TimesDrawn(rounds, |rounds|, p)
  }

  lemma {:induction false} CountsGrow<T>(all: seq<T>, rounds: seq<seq<T>>, round: seq<T>, before: map<T, nat>,
      after: map<T, nat>)
    requires CountsDraws(all, rounds, before) && after.Keys == before.Keys
    requires forall p :: p in all ==> after[p] == before[p] + multiset(round)[p]
    ensures CountsDraws(all, rounds + [round], after)
  {
    forall p | p in all
      ensures after[p] == TimesDrawn(rounds + [round], |rounds| + 1, p)
    {
      FirstDraws(rounds, rounds + [round], |rounds|, p);
    }
  }

  /**
   The generator, for any list of pairs and any number of rounds. Every plan with a
   round covers every pair. When the list repeats nothing, which pairs are drawn is
   random but how many are still uncovered before each round is not.
   */
  method GenerateRounds<T(==)>(all: seq<T>, n: int) returns (rounds: seq<seq<T>>, seenCount: map<T, nat>)
    ensures |rounds| == Max(0, n)
    ensures n >= 1 ==> CoveredBy(rounds, |rounds|) == Elements(all)
    ensures NoRepeats(all) ==> Planned(all, rounds, n)
    ensures CountsDraws(all, rounds, seenCount)
  {
    seenCount := map p | p in all :: 0;
    rounds := [];
    var covered: set<T> := {};
    NothingDrawnYet(all, n);
    while |rounds| < n
      invariant Progress(all, rounds, covered, n)
      invariant CountsDraws(all, rounds, seenCount)
    {
      var round := DrawRound(all, rounds, covered, n);
      ghost var before := seenCount;
      seenCount := CountRound(all, seenCount, round);
      var shuffled := Shuffle(round);
      CountsGrow(all, rounds, shuffled, before, seenCount);
      MakesProgress(all, rounds, covered, round, shuffled, n);
      covered := covered + Elements(round);
      rounds := rounds + [shuffled];
    }
  }

  /** What the loop over the rounds keeps. */
  ghost predicate Progress<T>(all: seq<T>, rounds: seq<seq<T>>, covered: set<T>, n: int) {
    && |rounds| <= Max(0, n)
    && covered == CoveredBy(rounds, |rounds|) <= Elements(all)
    && (|rounds| > 0 ==> Elements(rounds[|rounds| - 1]) <= covered)
    && (|rounds| == n && n >= 1 ==> covered == Elements(all))
    && (NoRepeats(all) ==> OnTrack(all, rounds, n))
  }

  lemma {:induction false} NothingDrawnYet<T>(all: seq<T>, n: int)
    ensures Progress(all, [], {}, n)
  {
    if NoRepeats(all) {
      CountElements(all);
      assert Elements(all) - {} == Elements(all);
    }
  }

  lemma {:induction false} MakesProgress<T>(all: seq<T>, rounds: seq<seq<T>>, covered: set<T>, round: seq<T>,
      shuffled: seq<T>, n: int)
    requires Progress(all, rounds, covered, n) && |rounds| < n
    requires Elements(round) <= Elements(all)
    requires |rounds| == n - 1 ==> Elements(all) - covered <= Elements(round)
    requires NoRepeats(all) && OnTrack(all, rounds, n) ==> NextFits(all, rounds, round, n)
    requires Elements(shuffled) == Elements(round) && |shuffled| == |round| && (NoRepeats(round) ==> NoRepeats(shuffled))
    ensures Progress(all, rounds + [shuffled], covered + Elements(round), n)
  {
    FirstRounds(rounds, rounds + [shuffled], |rounds|);
    if NoRepeats(all) {
      StaysOnTrack(all, rounds, round, shuffled, n);
    }
  }

  /** Adds one to the seen count of every pair of the round. */
  method CountRound<T(==)>(all: seq<T>, seenCount: map<T, nat>, round: seq<T>) returns (counts: map<T, nat>)
    requires seenCount.Keys == Elements(all) && Elements(round) <= Elements(all)
    ensures counts.Keys == Elements(all)
    ensures forall p :: p in all ==> counts[p] == seenCount[p] + multiset(round)[p]
  {
    counts := seenCount;
    for i := 0 to |round|
      invariant counts.Keys == Elements(all)
      invariant forall p :: p in all ==> counts[p] == seenCount[p] + multiset(round[..i])[p]
    {
      assert round[i] in Elements(round);
      assert round[..i + 1] == round[..i] + [round[i]];
      counts := counts[round[i] := counts[round[i]] + 1];
    }
    assert round[..|round|] == round;
  }

  // --- the coverage report ---

  datatype RoundReport<T> = RoundReport(
    round: nat, pairs: nat, uniquePairs: nat, newPairs: nat, cumulative: nat, missing: set<T>)

  datatype CoverageReport<T> = CoverageReport(
    totalPairs: nat, perRound: seq<RoundReport<T>>, firstFullRound: Option<nat>, round4Necessary: bool)

  ghost predicate FullAfter<T>(all: seq<T>, rounds: seq<seq<T>>, k: nat)
    requires k <= |rounds|
  {
    Elements(all) <= CoveredBy(rounds, k)
  }

  ghost predicate Reports<T>(all: seq<T>, rounds: seq<seq<T>>, i: nat, row: RoundReport<T>)
    requires i < |rounds|
  {
    && row.round == i + 1
    && row.pairs == |rounds[i]|
    && row.uniquePairs == |Elements(rounds[i])|
    && row.cumulative == |CoveredBy(rounds, i + 1)|
    && row.newPairs == |CoveredBy(rounds, i + 1)| - |CoveredBy(rounds, i)|
    && row.missing == Elements(all) - CoveredBy(rounds, i + 1)
  }

  /** The first of n rounds after which nothing is missing, counting from one. */
  ghost predicate IsFirstFull<T>(all: seq<T>, rounds: seq<seq<T>>, n: nat, first: Option<nat>)
    requires n <= |rounds|
  {
    match first
    case Some(k) => 1 <= k <= n && FullAfter(all, rounds, k) && forall j :: 1 <= j < k ==> !FullAfter(all, rounds, j)
    case None => forall j :: 1 <= j <= n ==> !FullAfter(all, rounds, j)
  }

  lemma {:induction false} NothingLeft<T>(all: set<T>, covered: set<T>)
    ensures |all - covered| == 0 <==> all <= covered
  {
    if |all - covered| == 0 {
      assert forall x :: x in all ==> x in covered || x in all - covered;
    } else {
      var x :| x in all - covered;
    }
  }

  lemma {:induction false} ReportRow<T>(all: seq<T>, rounds: seq<seq<T>>, i: nat, newOnes: set<T>)
    requires i < |rounds| && newOnes == Elements(rounds[i]) - CoveredBy(rounds, i)
    ensures var seen := CoveredBy(rounds, i) + newOnes;
            && seen == CoveredBy(rounds, i + 1)
            && Reports(all, rounds, i, RoundReport(i + 1, |rounds[i]|, |Elements(rounds[i])|, |newOnes|, |seen|, Elements(all) - seen))
  {
    assert CoveredBy(rounds, i) + newOnes == CoveredBy(rounds, i) + Elements(rounds[i]);
    assert |CoveredBy(rounds, i) + newOnes| == |CoveredBy(rounds, i)| + |newOnes|;
  }

  method BuildCoverageReport<T(==)>(all: seq<T>, rounds: seq<seq<T>>) returns (report: CoverageReport<T>)
    ensures report.totalPairs == |Elements(all)| && |report.perRound| == |rounds|
    ensures forall i :: 0 <= i < |rounds| ==> Reports(all, rounds, i, report.perRound[i])
    ensures IsFirstFull(all, rounds, |rounds|, report.firstFullRound)
    ensures report.round4Necessary == (report.firstFullRound.None? || report.firstFullRound.value > 3)
  {
    var seen: set<T> := {};
    var perRound: seq<RoundReport<T>> := [];
    var first: Option<nat> := None;
    for i := 0 to |rounds|
      invariant |perRound| == i && seen == CoveredBy(rounds, i)
      invariant forall j :: 0 <= j < i ==> Reports(all, rounds, j, perRound[j])
      invariant IsFirstFull(all, rounds, i, first)
    {
      var newOnes := Elements(rounds[i]) - seen;
      ReportRow(all, rounds, i, newOnes);
      seen := seen + newOnes;
      var missing := Elements(all) - seen;
      perRound := perRound + [RoundReport(i + 1, |rounds[i]|, |Elements(rounds[i])|, |newOnes|, |seen|, missing)];
      NothingLeft(Elements(all), seen);
      if first.None? && |missing| == 0 {
        first := Some(i + 1);
      }
    }
    report := CoverageReport(|Elements(all)|, perRound, first, first.None? || first.value > 3);
  }

  // --- what every run shares ---

  /** How far coverage has got before the last round depends on the number of pairs alone. */
  lemma {:induction false} CoverageIsDeterministic<T>(all: seq<T>, rounds: seq<seq<T>>, n: nat, k: nat)
    requires NoRepeats(all) && Planned(all, rounds, n) && CoveredBy(rounds, |rounds|) == Elements(all)
    requires 1 <= k <= n
    ensures FullAfter(all, rounds, k) <==> k == n || UncoveredBefore(|all|, k) == 0
  {
    if k < n {
      assert RoundFits(all, rounds, k, n);
      NothingLeft(Elements(all), CoveredBy(rounds, k));
    }
  }

  /** The gap of the 49 pairs closes as 49, 25, 12, 0. */
  lemma {:induction false} GapOfFortyNine(i: nat)
    ensures UncoveredBefore(49, i) == if i == 0 then 49 else if i == 1 then 25 else if i == 2 then 12 else 0
  {
    if i > 3 {
      GapOfFortyNine(i - 1);
    }
  }

  /**
   The command-line run on 49 pairs. With three rounds or more the first full round
   is always the third, so the fourth round is never necessary.
   */
  method GenerateWithReport<T(==)>(all: seq<T>, n: int) returns (rounds: seq<seq<T>>, report: CoverageReport<T>)
    requires NoRepeats(all) && |all| == 49
    ensures Planned(all, rounds, n)
    ensures report.firstFullRound == if n <= 0 then None else Some(Min(n, 3))
    ensures n >= 1 ==> !report.round4Necessary
  {
    var seenCount;
    rounds, seenCount := GenerateRounds(all, n);
    report := BuildCoverageReport(all, rounds);
    if n >= 1 {
      forall k: nat | 1 <= k <= n
        ensures FullAfter(all, rounds, k) <==> k == n || k >= 3
      {
        CoverageIsDeterministic(all, rounds, n, k);
        GapOfFortyNine(k);
      }
      assert FullAfter(all, rounds, Min(n, 3));
    }
  }

  /**
   The last round is wider than its cycle size exactly when the gap before it is; for 49 pairs, in
   a one-round plan only.
   */
  lemma {:induction false} WideningOnlyForOneRound<T>(all: seq<T>, rounds: seq<seq<T>>, n: nat)
    requires NoRepeats(all) && |all| == 49 && Planned(all, rounds, n) && n >= 1
    ensures |rounds[n - 1]| > CycleSize(n - 1) <==> n == 1
  {
    assert RoundFits(all, rounds, n - 1, n);
    GapOfFortyNine(n - 1);
  }

  // --- the documented repeat of every pair ---

  lemma {:induction false} RoundIsCovered<T>(rounds: seq<seq<T>>, k: nat, i: nat)
    requires i < k <= |rounds|
    ensures Elements(rounds[i]) <= CoveredBy(rounds, k)
  {
    if i < k - 1 {
      RoundIsCovered(rounds, k - 1, i);
    }
  }

  /** What b repeats of a is what it does not add to it. */
  lemma {:induction false} OverlapSize<T>(all: set<T>, a: set<T>, b: set<T>)
    requires a <= all && b <= all
    ensures |b * a| == |b| - (|all - a| - |all - a - b|)
  {
    var gap := all - a;
    SubsetSize(gap * b, gap);
    assert gap - gap * b == gap - b && gap * b == b - a;
    SubsetSize(b - a, b);
    assert b - (b - a) == b * a;
  }

  lemma {:induction false} FirstTwoRounds<T>(rounds: seq<seq<T>>)
    requires |rounds| >= 2
    ensures CoveredBy(rounds, 1) == Elements(rounds[0])
    ensures CoveredBy(rounds, 2) == Elements(rounds[0]) + Elements(rounds[1])
  {
    assert CoveredBy(rounds, 0) == {};
  }

  /** What the first two rounds leave uncovered. */
  lemma {:induction false} SecondRoundLeaves<T>(all: seq<T>, rounds: seq<seq<T>>, n: nat)
    requires n >= 2 && Planned(all, rounds, n) && CoveredBy(rounds, |rounds|) == Elements(all)
    ensures |Elements(all) - Elements(rounds[0])| == Max(0, |all| - 24)
    ensures |Elements(all) - Elements(rounds[0]) - Elements(rounds[1])| == if n == 2 then 0 else Max(0, Max(0, |all| - 24) - 13)
  {
    FirstTwoRounds(rounds);
    assert RoundFits(all, rounds, 1, n);
    assert Elements(all) - Elements(rounds[0]) - Elements(rounds[1]) == Elements(all) - CoveredBy(rounds, 2);
    if n > 2 {
      assert RoundFits(all, rounds, 2, n);
      SecondGap(|all|);
    }
  }

  /** How much of the first round the second one repeats. */
  lemma {:induction false} SecondRoundOverlap<T>(all: seq<T>, rounds: seq<seq<T>>, n: nat)
    requires NoRepeats(all) && n >= 2 && Planned(all, rounds, n) && CoveredBy(rounds, |rounds|) == Elements(all)
    ensures |rounds[0]| == Min(24, |all|) && Elements(rounds[1]) <= Elements(all)
    ensures var gap := Max(0, |all| - 24);
            var left := if n == 2 then 0 else Max(0, gap - 13);
            |Elements(rounds[1]) * Elements(rounds[0])| == |rounds[1]| - (gap - left)
  {
    assert RoundFits(all, rounds, 0, n) && RoundFits(all, rounds, 1, n);
    RoundIsCovered(rounds, n, 0);
    RoundIsCovered(rounds, n, 1);
    CountElements(rounds[1]);
    SecondRoundLeaves(all, rounds, n);
    OverlapSize(Elements(all), Elements(rounds[0]), Elements(rounds[1]));
  }

  lemma {:induction false} SecondGap(pairs: nat)
    ensures UncoveredBefore(pairs, 2) == Max(0, Max(0, pairs - 24) - 13)
  {
    assert UncoveredBefore(pairs, 1) == Max(0, pairs - 24);
  }

  lemma {:induction false} SubsetIffOverlap<T>(a: set<T>, b: set<T>)
    ensures a <= b <==> |b * a| == |a|
  {
    assert a <= b <==> b * a == a;
    if |b * a| == |a| {
      SameSize(b * a, a);
    }
  }

  /** The second round draws every pair of the first one again exactly when there are at most 25 pairs. */
  lemma {:induction false} FirstRoundIsRepeatedUpTo25<T>(all: seq<T>, rounds: seq<seq<T>>, n: nat)
    requires NoRepeats(all) && n >= 2 && Planned(all, rounds, n) && CoveredBy(rounds, |rounds|) == Elements(all)
    ensures Elements(rounds[0]) <= Elements(rounds[1]) <==> |all| <= 25
  {
    SecondRoundOverlap(all, rounds, n);
    assert RoundFits(all, rounds, 0, n) && RoundFits(all, rounds, 1, n);
    CountElements(rounds[0]);
    SubsetIffOverlap(Elements(rounds[0]), Elements(rounds[1]));
  }

  /** Every pair of a round is in the next one too. */
  ghost predicate EveryPairRepeats<T>(rounds: seq<seq<T>>) {
    forall i :: 0 < i < |rounds| ==> Elements(rounds[i - 1]) <= Elements(rounds[i])
  }

  lemma {:induction false} WholeRound<T>(all: seq<T>, rounds: seq<seq<T>>, n: nat, i: nat)
    requires NoRepeats(all) && Planned(all, rounds, n) && CoveredBy(rounds, |rounds|) == Elements(all)
    requires i < n && |rounds[i]| >= |all|
    ensures Elements(rounds[i]) == Elements(all)
  {
    assert RoundFits(all, rounds, i, n);
    RoundIsCovered(rounds, n, i);
    CountElements(rounds[i]);
    CountElements(all);
    SubsetSize(Elements(rounds[i]), Elements(all));
    SameSize(Elements(rounds[i]), Elements(all));
  }

  lemma {:induction false} SmallListsRepeat<T>(all: seq<T>, rounds: seq<seq<T>>, n: nat)
    requires NoRepeats(all) && n >= 2 && Planned(all, rounds, n) && CoveredBy(rounds, |rounds|) == Elements(all)
    requires |all| <= 24
    ensures EveryPairRepeats(rounds)
  {
    forall i | 0 < i < n
      ensures Elements(rounds[i - 1]) <= Elements(rounds[i])
    {
      assert RoundFits(all, rounds, i, n);
      WholeRound(all, rounds, n, i);
      RoundIsCovered(rounds, n, i - 1);
    }
  }

  /** On 25 pairs the third round is one short of the second. */
  lemma {:induction false} TwentyFiveDoNotRepeat<T>(all: seq<T>, rounds: seq<seq<T>>, n: nat)
    requires NoRepeats(all) && n > 2 && Planned(all, rounds, n) && |all| == 25
    ensures !(Elements(rounds[1]) <= Elements(rounds[2]))
  {
    assert RoundFits(all, rounds, 1, n) && RoundFits(all, rounds, 2, n);
    SecondGap(25);
    CountElements(rounds[1]);
    CountElements(rounds[2]);
    if Elements(rounds[1]) <= Elements(rounds[2]) {
      SubsetSize(Elements(rounds[1]), Elements(rounds[2]));
    }
  }

  lemma {:induction false} RepeatsFrom<T>(rounds: seq<seq<T>>, i: nat)
    requires 0 < i < |rounds| && EveryPairRepeats(rounds)
    ensures Elements(rounds[i - 1]) <= Elements(rounds[i])
  {
  }

  /**
   The documented repeat of every pair holds exactly for lists that fit into every round: up to 24
   pairs, or 25 in a two-round plan.
   */
  lemma {:induction false} RepeatsExactlyWhenRoundsHoldEverything<T>(all: seq<T>, rounds: seq<seq<T>>, n: nat)
    requires NoRepeats(all) && n >= 2 && Planned(all, rounds, n) && CoveredBy(rounds, |rounds|) == Elements(all)
    ensures EveryPairRepeats(rounds) <==> |all| <= 24 || (|all| == 25 && n == 2)
  {
    FirstRoundIsRepeatedUpTo25(all, rounds, n);
    if |all| <= 24 {
      SmallListsRepeat(all, rounds, n);
    } else if EveryPairRepeats(rounds) {
      RepeatsFrom(rounds, 1);
      if n > 2 {
        RepeatsFrom(rounds, 2);
        TwentyFiveDoNotRepeat(all, rounds, n);
      }
    }
  }

  /** Of the 49 pairs, the second round repeats exactly 12 of the first round's 24 on every run of three rounds or more. */
  lemma {:induction false} SecondRoundRepeatsHalf<T>(all: seq<T>, rounds: seq<seq<T>>, n: nat)
    requires NoRepeats(all) && |all| == 49 && Planned(all, rounds, n) && n >= 3
    requires CoveredBy(rounds, |rounds|) == Elements(all)
    ensures |rounds[0]| == 24 && |Elements(rounds[1]) * Elements(rounds[0])| == 12
  {
    SecondRoundOverlap(all, rounds, n);
    assert RoundFits(all, rounds, 1, n);
  }

  // --- seen counts ---

  /** In how many of the first k rounds p is. */
  function RoundsHolding<T(==)>(rounds: seq<seq<T>>, k: nat, p: T): nat
    requires k <= |rounds|
  {
    if k == 0 then 0 else RoundsHolding(rounds, k - 1, p) + (if p in rounds[k - 1] then 1 else 0)
  }

  lemma {:induction false} DrawnOncePerRound<T>(rounds: seq<seq<T>>, k: nat, p: T)
    requires k <= |rounds| && forall i :: 0 <= i < k ==> NoRepeats(rounds[i])
    ensures TimesDrawn(rounds, k, p) == RoundsHolding(rounds, k, p)
  {
    if k > 0 {
      DrawnOncePerRound(rounds, k - 1, p);
    }
  }

  /** For a list without repetition the seen count of a pair is the number of rounds that hold it. */
  lemma {:induction false} SeenCountsAreRounds<T>(all: seq<T>, rounds: seq<seq<T>>, n: int, seenCount: map<T, nat>)
    requires NoRepeats(all) && Planned(all, rounds, n) && CountsDraws(all, rounds, seenCount)
    ensures forall p :: p in all ==> seenCount[p] == RoundsHolding(rounds, |rounds|, p)
  {
    forall p | p in all
      ensures seenCount[p] == RoundsHolding(rounds, |rounds|, p)
    {
      forall i | 0 <= i < |rounds|
        ensures NoRepeats(rounds[i])
      {
        assert RoundFits(all, rounds, i, n);
      }
      DrawnOncePerRound(rounds, |rounds|, p);
    }
  }
}
