# Verification of Wardence's stateful core

Wardence injects faults into a Kubernetes cluster, lets a stub and a chain of LLMs
diagnose them, and earns or loses the right to act, class by class. This project models
the parts of it that keep state or promise something over whole runs, and proves those
promises for every run: every random choice, every behaviour of models, tools and
callers, and every interleaving where processes run side by side.

| module | models |
|---|---|
| `RoundPlanner` | the rolling-overlap round generator and its coverage report |
| `ShuffledPlan` | the random pairing of a shuffled batch plan, and plans from pair files |
| `BatchRunner`, `BatchResume`, `BatchBounds`, `BatchSettled` | the batch executor; pausing and resuming; bounds over a plan's whole life; how it leaves its chunks |
| `QuotaTracker`, `QuotaRuns` | the daily aggregate, the exhaustion marks and the calls made through them; runs of calls |
| `TimeWindows` | counting in sliding windows, shared by the login limiter, the breaker and the holds |
| `LoginLimiter` | the failed-login lockout |
| `SystemLock` | the cross-process lock, as code and as an interleaving of any number of processes |
| `TrustLadder`, `TrustDatabase`, `TrustRuns` | trust dimensions A, B and C, the circuit breaker and the safety holds; runs of events |
| `Calibration` | the confidence refit, its arithmetic and the lookup |
| `Quantities`, `ActionSafety`, `DispatchGate` | resource quantities, validator and safety check, the gate and the dispatch decision |
| `ReactAgent` | the multi-turn diagnosis loop with failover |
| `ActionProposer` | the bounded action proposal |
| `Options` | the optional value |

Classes and loops of the source are classes and loops here, proved against a function or
predicate on values; what the source promises over runs is proved about that function.
Random picks are arbitrary choices. Times are integers (seconds) read from a clock that
does not run backwards where a lemma says so. Replies of models, results of tools, the
outcome of an episode, the pause requests, the password check and live readings are
parameters that may be anything.

`TrustDatabase.Policy` stands for the lists of classes: `FAULT_CLASSES` in
`p2_readonly_loop/react_agent.py:78-83` and the keys of `PROMOTION_STREAK` in
`p3_trust_action/trust_engine.py:20-27`. The theorems hold for any such lists. Likewise
the action map, the chain and the thresholds of the diagnosis loop are parameters.

Every lemma turns Dafny's automatic induction off. All inductions are written out, and with
several sequence parameters Dafny 4.11 can take an induction hypothesis that is not typed
and so prove false statements.

## Where the code and its documentation differ

The model follows the code. Each of these is a lemma.

- A hard stop (infrastructure, injector or scorer) makes a resumed batch forget the
  failures counted so far, so "three strikes" does not hold over a plan's life: it does
  exactly when no hard stop is resumed from (`BatchBounds.ThreeAttemptsIffNothingIsResumed`),
  and otherwise the bound of `AttemptsAreBounded` is reached (`HardStopForgetsFailures`).
- The round generator's documentation promises every pair of a round a repeat in the
  next. That holds exactly for at most 24 pairs, or 25 in a two-round plan
  (`RoundPlanner.RepeatsExactlyWhenRoundsHoldEverything`); of 49 pairs, round 2 repeats 12
  of the 24 in round 1 (`SecondRoundRepeatsHalf`). Round 4 is never what completes the
  coverage of 49 pairs (`GenerateWithReport`).
- A breaker trip resets dimension A only for classes that can act. A class with a streak
  of one to four keeps it and needs fewer than five correct outcomes after the trip
  (`TrustRuns.TripLeavesAPartialStreak` says exactly when).
- The lock's ten minutes run from the clock reading before the update, not from the entry
  into the locked region: a margin from entry is kept exactly when it and the delay fit
  into them (`SystemLock.MarginFromEntryIsExact`).
- The lockout keeps five failures per window exactly for windows shorter than its fifteen
  minutes (`LoginLimiter.FiveExactlyBelowTheLockoutWidth`); a closed quarter of an hour can
  hold ten and no more (`ClosedWindowHoldsTen`, `AtMostTenInAClosedWindow`).
- A lookup on a model with one to four rows is documented to pass the raw value through;
  the code raises. A confidence of -1.1 or less makes the refit or the lookup fail
  (`Calibration.LookUpIsEmpirical`, `SlotIsTheTenth`).
- The action prompt tells the model to propose a restart when a metric is missing; for
  those classes that proposal is always rejected
  (`ActionProposer.ObeyingTheExceptionEndsInTheFallback`).
- The production fix for disk-full carries a replica count that the validator refuses as an
  unexpected parameter; it is dispatched without being validated
  (`ActionSafety.ProductionFixesValidateButOne`).
- When a batch is resumed after a class was given up, the chunk that gave it up is written
  up to its target as well; only a chunk that gave up in the last session keeps what it
  recorded (`BatchSettled.GivenUpChunksEndAtTargetButOne`).
- The gate weighs a magnitude only when two classes share a tool. In the production map
  none do (`DispatchGate.ProductionHasOneToolPerClass`), so a wrong diagnosis always ends
  in the actual class's own fix (`WrongDiagnosisGetsTheRealFix`), which is not itself
  checked: the OOM fix would fail the safety check from an observed peak of 400Mi on
  (`ActionSafety.OomFixPassesBelowItself`).

## Model

| member | source | states |
|---|---|---|
| `RoundPlanner.GenerateRounds` | `p2_readonly_loop/phase_d_generate_sample_rounds.py:157-264` | For every random choice: the asked number of rounds; at least one round means every pair is covered; for distinct pairs each round repeats nothing, has its size, and finds exactly the expected number of pairs uncovered; seen counts are the numbers of draws |
| `RoundPlanner.PickWithoutReplacement` | `p2_readonly_loop/phase_d_generate_sample_rounds.py:116-154` | A pick of n takes the smaller of n and what there is, each entry at most as often as offered, and everything when n is large enough |
| `RoundPlanner.MiddleRound` | `p2_readonly_loop/phase_d_generate_sample_rounds.py:220-250` | A middle round repeats at least half a cycle size of its predecessor, repeats nothing within itself, has the cycle size, and closes the gap by exactly its fresh half |
| `RoundPlanner.FirstRound` | `p2_readonly_loop/phase_d_generate_sample_rounds.py:215-218` | The first round is a duplicate-free pick of the cycle size, and what stays uncovered is the rest |
| `RoundPlanner.LastRound` | `p2_readonly_loop/phase_d_generate_sample_rounds.py:176-213` | The safety net takes every uncovered pair and is as wide as the larger of the cycle size and the gap |
| `RoundPlanner.RollOverSets` | `p2_readonly_loop/phase_d_generate_sample_rounds.py:220-250` | Only the fresh half is new: repeats are used to fill up only when nothing is uncovered |
| `RoundPlanner.StaysOnTrack` | `p2_readonly_loop/phase_d_generate_sample_rounds.py:252-264` | A round of the right shape keeps all earlier rounds and the expected gap in place, in whatever order it is shuffled |
| `RoundPlanner.BuildCoverageReport` | `p2_readonly_loop/phase_d_generate_sample_rounds.py:267-304` | Each row of the report is what the rounds so far hold, and the first full round is the first after which nothing is missing |
| `RoundPlanner.CoverageIsDeterministic` | `p2_readonly_loop/phase_d_generate_sample_rounds.py:157-264` | Whether coverage is complete after k rounds depends on the number of pairs alone, not on the draws |
| `RoundPlanner.GapOfFortyNine` | `p2_readonly_loop/phase_d_generate_sample_rounds.py:104-109` | 49 pairs go 49, 25, 12, 0 |
| `RoundPlanner.GenerateWithReport` | `p2_readonly_loop/phase_d_generate_sample_rounds.py:315-328` | On 49 pairs the first full round is the last of one or two and otherwise the third, and round 4 is never reported as necessary |
| `RoundPlanner.WideningOnlyForOneRound` | `p2_readonly_loop/phase_d_generate_sample_rounds.py:176-213` | On 49 pairs the last round outgrows its cycle size exactly in a one-round plan |
| `RoundPlanner.RepeatsExactlyWhenRoundsHoldEverything` | `p2_readonly_loop/phase_d_generate_sample_rounds.py:8-14` | The documented repeat of every pair in the next round holds exactly for at most 24 pairs, or 25 in a two-round plan |
| `RoundPlanner.FirstRoundIsRepeatedUpTo25` | `p2_readonly_loop/phase_d_generate_sample_rounds.py:220-250` | Round 2 repeats all of round 1 exactly when there are at most 25 pairs |
| `RoundPlanner.SecondRoundOverlap` | `p2_readonly_loop/phase_d_generate_sample_rounds.py:220-250` | For any number of pairs and rounds, how many pairs of round 1 round 2 repeats |
| `RoundPlanner.SecondRoundRepeatsHalf` | `p2_readonly_loop/phase_d_generate_sample_rounds.py:8-14` | On 49 pairs and three rounds or more, round 2 repeats exactly 12 of the 24 pairs of round 1 |
| `RoundPlanner.SeenCountsAreRounds` | `p2_readonly_loop/phase_d_generate_sample_rounds.py:255-257` | The seen count of a pair is the number of rounds that hold it |
| `ShuffledPlan.BuildShuffledPlan` | `p2_readonly_loop/run_batch_plan.py:260-305` | For every random run: adjacent single-episode pairs of distinct classes, then at most one chunk of one class, and every class gets exactly its requested episodes |
| `ShuffledPlan.SpendPair` | `p2_readonly_loop/run_batch_plan.py:295-300` | Both classes of a pair lose one episode before either is dropped |
| `ShuffledPlan.PairSpent` | `p2_readonly_loop/run_batch_plan.py:286-300` | A pair moves two episodes from the budget to the plan and creates or loses none |
| `ShuffledPlan.PairsShareEvenly` | `p2_readonly_loop/run_batch_plan.py:268-274` | In the paired part no class has more than half of the episodes |
| `ShuffledPlan.TailBounds` | `p2_readonly_loop/run_batch_plan.py:302-305` | The tail has the parity of the total and is at least the excess of any class over all others together |
| `ShuffledPlan.TwoClassesLeaveTheDifference` | `p2_readonly_loop/run_batch_plan.py:286-305` | With two classes the tail is the difference of their budgets on every run |
| `ShuffledPlan.PairsFileToPlan` | `p2_readonly_loop/run_batch_plan.py:319-335` | Each listed pair becomes two single-episode chunks in order |
| `BatchRunner.PlanRunner.constructor` | `p2_readonly_loop/run_batch_plan.py:583-589` | A new plan starts with nothing done and nothing given up |
| `BatchRunner.PlanRunner.RunSession` | `p2_readonly_loop/run_batch_plan.py:594-597` | One run of the script leaves the saved state, the attempts and the status that the session specification gives; with a dirty baseline it changes nothing but the status |
| `BatchRunner.PlanRunner.RunChunk` | `p2_readonly_loop/run_batch_plan.py:660-734` | The attempts of one chunk end in a stop, a pause or the next chunk, with the state the specification has there |
| `BatchRunner.PlanRunner.Tally` | `p2_readonly_loop/run_batch_plan.py:672-721` | An attempt is a stop, a failure that may give the class up, or a recorded episode, and changes only what belongs to it |
| `BatchRunner.SessionShrinks` | `p2_readonly_loop/run_batch_plan.py:642-737` | A session never adds to the work left and takes some off before it pauses, so pausing and resuming ends |
| `BatchResume.PausesAreInvisible` | `p2_readonly_loop/run_batch_plan.py:725-743` | Pausing at any safe points and resuming makes the same attempts with the same outcomes, the same give-ups, and the same progress of every class not given up, as never pausing |
| `BatchResume.PausedSessionIsAPrefix` | `p2_readonly_loop/run_batch_plan.py:727-734` | A session that pauses is the unpaused one cut short |
| `BatchResume.SameSession` | `p2_readonly_loop/run_batch_plan.py:642-655` | A session that starts over at the first chunk passes the closed chunks and then does what the session it resumes would have done |
| `BatchBounds.AttemptsAreBounded` | `p2_readonly_loop/run_batch_plan.py:660-714` | Over the whole life of the plan a chunk is attempted at most three times per requested episode, plus two for each hard stop in that chunk that was resumed from |
| `BatchBounds.ProgressIsWhatWasRecorded` | `p2_readonly_loop/run_batch_plan.py:716-721` | Progress stays within the target and is exactly what was recorded unless the class was given up |
| `BatchBounds.GivenUpForGood` | `p2_readonly_loop/run_batch_plan.py:650-655` | Once a class is given up no chunk of it is attempted again, in this or any later session |
| `BatchBounds.HardStopForgetsFailures` | `p2_readonly_loop/run_batch_plan.py:660-676` | For every target and every number of resumed hard stops, some outcomes make a chunk use up the whole bound: the failure count does not survive a stop |
| `BatchBounds.ThreeAttemptsIffNothingIsResumed` | `p2_readonly_loop/run_batch_plan.py:140` | Three attempts per episode suffice on every outcome stream exactly when no hard stop is resumed from |
| `BatchSettled.SessionEndsAsItShould` | `p2_readonly_loop/run_batch_plan.py:672-734` | A session stops right after its first hard stop, pauses right after the first recorded episode at which a pause was asked for, and completes otherwise |
| `BatchSettled.GivenUpChunksArePassedOver` | `p2_readonly_loop/run_batch_plan.py:650-655` | A complete session leaves every chunk ahead of it whose class was given up before at its target |
| `BatchSettled.SessionEnds` | `p2_readonly_loop/run_batch_plan.py:642-743` | How a complete session leaves each chunk: at its target, unless the chunk gave its class up in this session; then at what it recorded, which is what was written down |
| `BatchSettled.GivenUpChunksEndAtTargetButOne` | `p2_readonly_loop/run_batch_plan.py:650-713` | In a complete plan every chunk of a given-up class ends at its target, except the one that gave the class up in the last session: it ends below, at exactly what was recorded |
| `QuotaTracker.QuotaDatabase.constructor` | `p2_readonly_loop/quota_tracker.py:91-115` | An empty database agrees with an empty log |
| `QuotaTracker.QuotaDatabase.RecordCall` | `p2_readonly_loop/quota_tracker.py:277-309` | One upsert and one log row per call keep the daily aggregate equal to the fold of the log |
| `QuotaTracker.UpsertAgrees` | `p2_readonly_loop/quota_tracker.py:282-300` | The upsert changes the one aggregate row of the logged call and keeps calls, tokens and neurons equal to the sums over the log |
| `QuotaTracker.QuotaDatabase.MarkExhausted` | `p2_readonly_loop/quota_tracker.py:166-196` | A mark stands until fifteen minutes later or midnight UTC, whichever is first |
| `QuotaTracker.QuotaDatabase.ClearExhausted` | `p2_readonly_loop/quota_tracker.py:199-213` | A success removes the mark of its own source only |
| `QuotaTracker.QuotaDatabase.TodayNeuronUsage` | `p2_readonly_loop/quota_tracker.py:312-325` | The sum of the aggregate rows is the sum of the provider's log rows of the day, over all its models |
| `QuotaTracker.PoolOfRows` | `p2_readonly_loop/quota_tracker.py:312-325` | Adding up per-model rows loses and repeats no logged neuron |
| `QuotaTracker.QuotaDatabase.CheckQuota` | `p2_readonly_loop/quota_tracker.py:417-463` | The verdict read from marks and aggregates is the one the log and the marks give |
| `QuotaTracker.QuotaDatabase.CallOne` | `p2_readonly_loop/model_backend.py:674-724` | A refused call leaves the database alone; a sent one is logged once, an answer clears the mark, and an exhaustion notice sets it |
| `QuotaTracker.QuotaDatabase.CallChain` | `p2_readonly_loop/model_backend.py:727-752` | The chain stops at the first success and reports the failures of the entries before it in order |
| `QuotaRuns.DailyLimitIsKept` | `p2_readonly_loop/quota_tracker.py:417-463` | No UTC day sees more calls to a source than its known limit, even when a call straddles midnight |
| `QuotaRuns.NeuronBudgetIsKept` | `p2_readonly_loop/quota_tracker.py:57-68` | The pooled Cloudflare neurons of a day exceed budget less threshold by at most one call |
| `QuotaRuns.BudgetIsNeverOverrun` | `p2_readonly_loop/quota_tracker.py:57-68` | With calls of at most 400 neurons the budget of 10000 is never overrun |
| `QuotaRuns.NothingSentBeforeTheProbe` | `p2_readonly_loop/quota_tracker.py:216-242` | Between an exhaustion notice and its probe time no request is sent to that source |
| `QuotaRuns.NoticesAreSpaced` | `p2_readonly_loop/quota_tracker.py:88` | Two notices for one source on one day are at least fifteen minutes apart |
| `QuotaRuns.AtMostNinetySixNotices` | `p2_readonly_loop/quota_tracker.py:158-196` | At most 96 notices for a source fall on one day |
| `QuotaRuns.UsageIsWhatWasSent` | `p2_readonly_loop/model_backend.py:706-717` | The daily usage of a source counts exactly the calls that were sent, their tokens and, for Cloudflare, their neurons |
| `QuotaRuns.BlockedExactlyAfterANotice` | `p2_readonly_loop/quota_tracker.py:216-242` | A source is found marked exactly when a notice for it came less than fifteen minutes before on the same day, so every mark lets calls through again |
| `QuotaRuns.SentExactlyWhen` | `p2_readonly_loop/quota_tracker.py:417-463` | A call is sent exactly when there is no such notice, the pooled neurons are at most 9600 and a known limit is not used up; with a warning from four fifths of a limit on |
| `QuotaRuns.RefusalsSayWhy` | `p2_readonly_loop/quota_tracker.py:417-463` | A refusal names the first reason of notice, neurons and limit |
| `QuotaRuns.ResultsAreWhatCameBack` | `p2_readonly_loop/model_backend.py:693-724` | A call succeeds exactly when it is sent and answered, and is reported as refused exactly when it is not sent |
| `TimeWindows.ThresholdSeenIffWindowFull` | `p3_trust_action/circuit_breaker.py:76-83` | Under a forward clock, some decision saw k recent entries exactly when some window holds k |
| `TimeWindows.EntryCountsBoundEveryWindow` | `p3_trust_action/accounts.py:163-172` | If no entry saw more than k recent entries, no window of that width holds more, wherever it lies |
| `LoginLimiter.AccountStore.RecordAttempt` | `p3_trust_action/accounts.py:175-180` | An attempt is appended and nothing else changes |
| `LoginLimiter.AccountStore.VerifyLogin` | `p3_trust_action/accounts.py:221-252` | The result follows the order lockout, account, active, expiry, password; every call that is not locked out logs exactly one attempt |
| `LoginLimiter.OneMoreFailure` | `p3_trust_action/accounts.py:163-180` | A failure let through keeps the limit although the clock moves between check and log |
| `LoginLimiter.AtMostFiveFailuresPerWindow` | `p3_trust_action/accounts.py:38-39` | In every run no fifteen minutes, open at one end, hold more than five failures of a username |
| `LoginLimiter.FiveExactlyBelowTheLockoutWidth` | `p3_trust_action/accounts.py:163-172` | Every run keeps at most five failures in every closed window of a width exactly when the width is below 900 seconds |
| `LoginLimiter.AtMostTenInAClosedWindow` | `p3_trust_action/accounts.py:163-172` | A closed fifteen minutes never holds more than ten |
| `LoginLimiter.ClosedWindowHoldsTen` | `p3_trust_action/accounts.py:163-172` | A run reaches ten, in every closed window of fifteen minutes or more |
| `LoginLimiter.AnswersExactly` | `p3_trust_action/accounts.py:231-252` | Somebody logs in exactly with fewer than five recent failures, an active account that has not expired and the right password; each other answer is given in exactly its own case |
| `LoginLimiter.EachCallIsLogged` | `p3_trust_action/accounts.py:175-180` | A call that is not locked out has exactly one row in the log, in order, and it is a success exactly if the call gets in |
| `LoginLimiter.EachRowHasItsCall` | `p3_trust_action/accounts.py:175-180` | Every row of the log is the row of such a call |
| `SystemLock.LockTable.constructor` | `p2_readonly_loop/injector.py:1064-1077` | The row starts free |
| `SystemLock.LockTable.TryAcquire` | `p2_readonly_loop/injector.py:1080-1095` | The row is taken exactly when it is free or was acquired more than 600 seconds before |
| `SystemLock.LockTable.Release` | `p2_readonly_loop/injector.py:1098-1106` | Only the holder of the row frees it |
| `SystemLock.LockTable.AcquireOrDie` | `p2_readonly_loop/injector.py:1109-1125` | Whatever others do during the sleeps: at most seven attempts, success at the first that finds the row takable, and giving up only after the last |
| `SystemLock.InvStep` | `p2_readonly_loop/injector.py:1080-1106` | Every interleaved step keeps what is known of every process, the clock and the row |
| `SystemLock.InvHolds` | `p2_readonly_loop/injector.py:1080-1106` | It holds after every sequence of steps of any number of processes |
| `SystemLock.OvertakenOnlyWhenStale` | `p2_readonly_loop/injector.py:1056` | A process inside is the holder, or its clock reading is more than 600 seconds old |
| `SystemLock.MutualExclusion` | `p2_readonly_loop/injector.py:4963-5101` | Processes that leave within 600 seconds of their clock reading are never inside together |
| `SystemLock.MarginFromEntry` | `p2_readonly_loop/injector.py:1086-1093` | Counted from entry the margin shrinks by the delay between clock reading and update |
| `SystemLock.MarginFromEntryIsExact` | `p2_readonly_loop/injector.py:1086-1093` | On every interleaving a margin from entry excludes others exactly when it and the delay from clock reading to update add up to at most 600 seconds |
| `SystemLock.TenMinutesFromEntryFails` | `p2_readonly_loop/injector.py:1086-1093` | For every delay up to 601 seconds, two processes can be inside 601 seconds less the delay after an entry |
| `SystemLock.OnlyTheHolderFrees` | `p2_readonly_loop/injector.py:1098-1106` | A held row becomes free only by a release of its own holder, so an overtaken process cannot free it |
| `SystemLock.ReleaseFreesItsOwnRow` | `p2_readonly_loop/injector.py:1098-1106` | The release of the holder frees the row, and that of an overtaken process leaves it to its holder |
| `SystemLock.SevenAttempts` | `p2_readonly_loop/injector.py:1113-1124` | On every interleaving a process makes at most seven attempts and gives up after the seventh only |
| `SystemLock.TakeoverOnlyWhenStale` | `p2_readonly_loop/injector.py:1089-1092` | A held row changes hands directly only when stale |
| `SystemLock.NoCrashWedgesTheLock` | `p2_readonly_loop/injector.py:1051-1056` | After any history, crashes included, a newcomer that reads the clock past the stale margin gets in, on every interleaving in which nobody else attempts the row meanwhile |
| `TrustLadder.LadderTable.RecordOutcome` | `p3_trust_action/llm_trust_state.py:228-309` | An outcome moves one class and appends the row that says from where to where |
| `TrustLadder.LadderTable.ResetToSafeDefault` | `p3_trust_action/llm_trust_state.py:193-225` | A reset puts the class at the safe default and logs a miss even when there was nothing to reset |
| `TrustLadder.RecordKeepsSound` | `p3_trust_action/llm_trust_state.py:228-309` | Every outcome keeps stored standings equal to the replay of the history and the rows chained |
| `TrustLadder.ResetKeepsSound` | `p3_trust_action/llm_trust_state.py:193-225` | So does every reset |
| `TrustLadder.EarnedSince` | `p3_trust_action/llm_trust_state.py:61-63` | From the safe default a class is promoted later exactly when its last five logged outcomes since then are correct |
| `TrustDatabase.TrustStore.RecordOutcome` | `p3_trust_action/trust_engine.py:97-143` | Dimension A moves one class by its outcome; a class without a policy is refused and nothing changes |
| `TrustDatabase.TrustStore.RecordFailure` | `p3_trust_action/circuit_breaker.py:59-73` | The failure is logged and, if it makes three in five minutes, everything is reset in the same call |
| `TrustDatabase.TrustStore.CheckCircuitBreaker` | `p3_trust_action/circuit_breaker.py:91-147` | Below the threshold nothing changes; at it all three dimensions and the holds are reset |
| `TrustDatabase.TrustStore.DemoteAll` | `p3_trust_action/circuit_breaker.py:107-123` | Exactly the classes that can act are demoted |
| `TrustDatabase.TrustStore.SetSafetyHold` | `p3_trust_action/misdispatch_guard.py:106-132` | The start of a hold is set on a fresh hold, kept on a repeat, and removed on release |
| `TrustDatabase.TrustStore.ClearAllSafetyHolds` | `p3_trust_action/misdispatch_guard.py:147-156` | Exactly the active holds are released |
| `TrustDatabase.TrustStore.RecordMisdispatch` | `p3_trust_action/misdispatch_guard.py:159-195` | The misdispatch is logged, a hold is set at three in 24 hours, and the result says whether it is a new one |
| `TrustDatabase.TrustStore.ClearSafetyHold` | `p3_trust_action/misdispatch_guard.py:139-144` | A clear releases one class and touches nothing else |
| `TrustRuns.TripIsGlobal` | `p3_trust_action/circuit_breaker.py:106-147` | After a trip nobody can act, every listed class is at the safe default in B and C with one row logged each, no hold is active, and nothing else has moved |
| `TrustRuns.LedgersStaySound` | `p3_trust_action/llm_trust_state.py:193-309` | In every run of outcomes and trips the B and C ledgers stay the replay of their histories |
| `TrustRuns.StandingIsWhatWasEarned` | `p3_trust_action/llm_trust_state.py:228-309` | A listed class stands exactly where its correct outcomes since its last miss or the last trip put it |
| `TrustRuns.PromotionIsEarnedAfterATrip` | `p3_trust_action/circuit_breaker.py:131-133` | After any trip a listed class is promoted in B or C exactly on five correct outcomes in a row since |
| `TrustRuns.PromotionIsLoggedAfterATrip` | `p3_trust_action/llm_trust_state.py:205-224` | The same read off the history rows written since the trip |
| `TrustRuns.TripsIffWindowFull` | `p3_trust_action/circuit_breaker.py:76-104` | Under a forward clock a run trips exactly when some five minutes hold three failures |
| `TrustRuns.HoldStep` | `p3_trust_action/misdispatch_guard.py:106-195` | What one event does to the hold of one class |
| `TrustRuns.HoldHasACause` | `p3_trust_action/misdispatch_guard.py:97-195` | A class is held exactly when a misdispatch that made three in 24 hours found it not held and nothing released it since, and held_since is that misdispatch's time |
| `TrustRuns.HeldIffWindowFull` | `p3_trust_action/misdispatch_guard.py:159-190` | Under a forward clock a class is ever held exactly when some 24 hours hold three of its misdispatches |
| `TrustRuns.HoldsTouchNoTrust` | `p3_trust_action/misdispatch_guard.py:139-166` | Over any stretch of misdispatches and clears no trust state, streak or history moves |
| `TrustRuns.MisdispatchesAreLogged` | `p3_trust_action/misdispatch_guard.py:168-172` | The log holds exactly the misdispatches of the run, in order |
| `TrustRuns.TrustStaysEarned` | `p3_trust_action/trust_engine.py:108-121` | In every run a class can act exactly with a streak of five or more |
| `TrustRuns.NoPolicyNoTrust` | `p3_trust_action/trust_engine.py:105-106` | A class without a promotion policy never moves in dimension A |
| `TrustRuns.TripLeavesAPartialStreak` | `p3_trust_action/circuit_breaker.py:107-123` | A trip makes a class earn its five outcomes in dimension A again exactly when its streak was zero or it could act; a streak of one to four survives |
| `Calibration.SlotIsTheTenth` | `p2_readonly_loop/calibration_refit.py:106-107` | A confidence in [0, 1] lands in the tenth that contains it, anything above in the last bin, and the lookup fails exactly from -1.1 down |
| `Calibration.FitBins` | `p2_readonly_loop/calibration_refit.py:154-160` | The histogram holds exactly the totals and correct counts of each bin, and exists exactly when every confidence has a bin |
| `Calibration.BinsPartitionTheRows` | `p2_readonly_loop/calibration_refit.py:154-160` | Totals over the bins are the rows, correct counts are the correct rows |
| `Calibration.LaplaceShrinks` | `p2_readonly_loop/calibration_refit.py:163-165` | A smoothed accuracy is strictly between 0 and 1 and lies between the bin's own accuracy and one half |
| `Calibration.LaplaceExcess` | `p2_readonly_loop/calibration_refit.py:163-165` | What smoothing adds to a bin, summed over its rows, is k(1 - 2q) |
| `Calibration.RowsOrBins` | `p2_readonly_loop/calibration_refit.py:270-279` | Summing row by row or bin by bin is the same |
| `Calibration.SmoothingMovesLittle` | `p2_readonly_loop/calibration_refit.py:270-279` | Over any rows the summed calibrated accuracy is within 10k of the number of correct rows |
| `Calibration.Accuracies` | `p2_readonly_loop/calibration_refit.py:270-279` | The two printed accuracies differ by less than 10k/n |
| `Calibration.KeysDoNotCollide` | `p2_readonly_loop/calibration_refit.py:35-38` | A model under two providers gets two curves |
| `Calibration.FitPairs` | `p2_readonly_loop/calibration_refit.py:245-256` | A class has bins of its own exactly with 100 rows of the model and ten of the class, fitted to exactly those rows |
| `Calibration.FitCurve` | `p2_readonly_loop/calibration_refit.py:230-266` | Tag, smoothing and bins of a model follow its own rows and their number |
| `Calibration.GroupByModel` | `p2_readonly_loop/calibration_refit.py:206-214` | Rows are grouped by model in order; stale and excluded ones are counted |
| `Calibration.GroupIsSelection` | `p2_readonly_loop/calibration_refit.py:206-214` | A group has every row of its model as often as it was loaded, and no other |
| `Calibration.ClassIsSelection` | `p2_readonly_loop/calibration_refit.py:247-249` | The rows of a class are selected in the same way |
| `Calibration.NothingIsLost` | `p2_readonly_loop/calibration_refit.py:206-214` | Fitted, stale and excluded rows add up to all rows |
| `Calibration.Refit` | `p2_readonly_loop/calibration_refit.py:192-266` | A refit has one curve per model of the chain that has rows, each fitted to that model's rows, and counts the stale and the excluded rows; it fails exactly when a row to be fitted has no bin |
| `Calibration.LookUpIsEmpirical` | `p2_readonly_loop/calibration_refit.py:168-189` | A lookup is the smoothed share of correct rows among the evidence rows in the same tenth; no curve gives the raw value, a curve of at most four rows raises |
| `Quantities.ParseReadsWhatIsWritten` | `p3_trust_action/constraint_checks.py:46-57` | Every written quantity reads back as it was, with or without a final newline |
| `Quantities.ParsedWasWritten` | `p3_trust_action/constraint_checks.py:46-57` | Nothing else parses |
| `Quantities.MemoryConverts` | `p3_trust_action/constraint_checks.py:46-57` | 1024 of one unit of memory are one of the next, and 1048576 bytes one Mi |
| `Quantities.CoresConvert` | `p3_trust_action/constraint_checks.py:60-66` | 1000 millicores are one core |
| `Quantities.MemoryAmounts` | `p3_trust_action/constraint_checks.py:51-57` | Two ways to write an amount of memory read the same exactly when number times unit is the same |
| `Quantities.CpuAmounts` | `p3_trust_action/constraint_checks.py:60-66` | The same for CPU |
| `Quantities.TrailingZero` | `p3_trust_action/constraint_checks.py:51-66` | Digits after the point count by their place: a zero at the end changes nothing |
| `Quantities.WholeMi` | `p3_trust_action/constraint_checks.py:51-57` | n followed by Mi is n mebibytes |
| `Quantities.WholeMillicores` | `p3_trust_action/constraint_checks.py:60-66` | n followed by m is n millicores |
| `ActionSafety.ValidCallsAreSafeAboveTheFault` | `p3_trust_action/constraint_checks.py:100-199` | A call that the validator accepts is safe exactly when it asks for more than everything known to be too small for the fault, and that is known |
| `ActionSafety.MoreStaysSafe` | `p3_trust_action/constraint_checks.py:100-199` | Asking for more than a safe magnitude stays safe as long as the validator accepts it |
| `ActionSafety.ValidatesExactly` | `p3_trust_action/tool_call_validator.py:148-175` | The validator accepts exactly the calls of a known tool that give every required parameter an allowed value and add nothing but the right namespace |
| `ActionSafety.SafeCallsValidate` | `p3_trust_action/tool_call_validator.py:148-175` | A well-addressed call that passes the safety check passes the validator |
| `ActionSafety.OomFixPassesBelowItself` | `p3_trust_action/p3_agent.py:338-359` | The production fix for OOM would itself pass the check exactly when a peak below 400Mi was observed |
| `ActionSafety.CpuFixPassesBelowItself` | `p3_trust_action/p3_agent.py:338-369` | The production CPU fix would itself pass exactly while the live limit is known and below 600m |
| `ActionSafety.ScaleFixPassesBelowItself` | `p3_trust_action/p3_agent.py:338-376` | The production scaling fix would itself pass exactly while the count is known and below three |
| `ActionSafety.FixIsAimed` | `p3_trust_action/p3_agent.py:350-382` | A fix names the given target and namespace and has exactly its own extras beside them |
| `ActionSafety.ProductionFixesValidateButOne` | `p3_trust_action/tool_call_validator.py:102-131` | The production fixes pass the validator exactly for a named target in the one namespace, and the one for disk-full never does |
| `DispatchGate.GateAgreesWithScoring` | `p2_readonly_loop/trust_gate.py:112-135` | Under a wrong diagnosis the gate leaves a proposal alone exactly when scoring accepts it for the actual class |
| `DispatchGate.GatedFitsTheFault` | `p3_trust_action/dispatch_gate.py:78-131` | What the gate lets out uses the actual class's tool, is its fix verbatim or safe for it, and passing the gate again changes nothing |
| `DispatchGate.DispatchIffTrusted` | `p3_trust_action/p3_agent.py:889-959` | Something is dispatched exactly when the diagnosed class, or failing a fix for it the actual one, can act and is not on hold |
| `DispatchGate.DispatchFitsTheFault` | `p3_trust_action/p3_agent.py:952-1032` | Every dispatch fits the class it is meant for, and an unchanged proposal is one that scoring counts as correct |
| `DispatchGate.FixesAreAimedAtTheSite` | `p3_trust_action/p3_agent.py:350-382` | With one tool per class, whatever is dispatched other than a proposal is aimed at the target and namespace of the request and has the extras of the beneficiary's fix and no other field |
| `DispatchGate.ProductionKeepsAim` | `p3_trust_action/p3_agent.py:338-382` | No production fix redirects itself |
| `DispatchGate.ProposalGoesOutExactlyWhen` | `p3_trust_action/p3_agent.py:976-1012` | A proposal goes out exactly when dimension C is promoted, its tool is the class's, its magnitude is safe for the diagnosed class and it is correct for the class that benefits |
| `DispatchGate.ProductionHasOneToolPerClass` | `p3_trust_action/p3_agent.py:350-382` | No two classes of the production action map share a tool |
| `DispatchGate.WrongDiagnosisGetsTheRealFix` | `p3_trust_action/p3_agent.py:732-778` | With one tool per class a wrong diagnosis always ends in the actual class's own fix, and the gate never weighs a magnitude |
| `DispatchGate.NothingActsAfterATrip` | `p3_trust_action/circuit_breaker.py:91-147` | Right after a trip no request leads to a dispatch |
| `DispatchGate.HeldClassesDoNotAct` | `p3_trust_action/misdispatch_guard.py:97-195` | While a started hold is unreleased nothing is dispatched on that class's account |
| `DispatchGate.ProposalsAreEarned` | `p3_trust_action/llm_trust_state.py:269-309` | After a trip a proposal of the LLM is dispatched only on five correct actions in a row since |
| `DispatchGate.EarnedClassesAct` | `p3_trust_action/p3_agent.py:952-1032` | A class with its five correct outcomes and no unreleased hold is acted for |
| `ReactAgent.NumericThresholdHit` | `p2_readonly_loop/react_agent.py:199-213` | The first cut-off in order that the observation reaches, and none exactly when it reaches none |
| `ReactAgent.CutOffsAreReachedFromTheirValueOn` | `p2_readonly_loop/react_agent.py:199-213` | A number reaches a cut-off from its value on, a flag counts as one or zero, and nothing else counts |
| `ReactAgent.StrongSignalsAreListed` | `p2_readonly_loop/react_agent.py:256-270` | Only the listed fields of the one tool are a strong signal, and one that is set is enough |
| `ReactAgent.AttemptReports` | `p2_readonly_loop/react_agent.py:354-424` | The outcome of an attempt is what its last reply said, word for word |
| `ReactAgent.RunAttempt` | `p2_readonly_loop/react_agent.py:273-424` | An attempt lasts one to five turns, its outcome is what its last reply said, and its transcript and observations are made of its own turns only |
| `ReactAgent.TakeTurn` | `p2_readonly_loop/react_agent.py:311-422` | One turn ends the attempt or adds exactly its own lines and result |
| `ReactAgent.RunDiagnosis` | `p2_readonly_loop/react_agent.py:427-496` | At most five calls per provider; the failures reported are what the last replies of the providers before the answering one said, in order; the answer is what the last reply of all said |
| `ReactAgent.OneLength` | `p2_readonly_loop/react_agent.py:311-424` | The replies alone fix how many turns an attempt takes |
| `ReactAgent.OneFailureList` | `p2_readonly_loop/react_agent.py:464-494` | The replies alone fix which providers fail, when and why |
| `ReactAgent.OnlyProvidersFailOver` | `p2_readonly_loop/react_agent.py:354-416` | Only a failed call or a second unparseable reply hands over; an unknown tool or the fifth turn never does |
| `ReactAgent.NoCarryOver` | `p2_readonly_loop/react_agent.py:487-493` | Transcript and observations depend on the provider's own turns and on nothing before or after |
| `ReactAgent.EachTurnIsWritten` | `p2_readonly_loop/react_agent.py:379-422` | The transcript has each turn in its place: the tool called and what it returned, or that the reply could not be read |
| `ReactAgent.ObservationsAreLastResults` | `p2_readonly_loop/react_agent.py:374-381` | A tool is observed exactly when it was called, with the result of its last call |
| `ReactAgent.TranscriptIsWellNudged` | `p2_readonly_loop/react_agent.py:374-401` | Read off the transcript alone: a nudge stands only right after a result, and after each result stands exactly the one that is due, so the model is told that every tool was called only and always when the lines before mention them all and no evidence settles the case |
| `ActionProposer.FindChainEntry` | `p2_readonly_loop/action_proposer.py:259-263` | The first entry with that provider and model, or none when there is none |
| `ActionProposer.ProposeAction` | `p2_readonly_loop/action_proposer.py:266-353` | Which calls are made, with which feedback, what each try was, and that the result is the last try if it passed and the deterministic fix otherwise |
| `ActionProposer.AtMostThreeCalls` | `p2_readonly_loop/action_proposer.py:318-340` | At most three calls to at most two adjacent entries, and only the provider that was rejected hears why |
| `ActionProposer.FallbackIffNothingPassed` | `p2_readonly_loop/action_proposer.py:348-353` | The deterministic fix is used exactly when no try passed |
| `ActionProposer.PassesExactly` | `p2_readonly_loop/action_proposer.py:210-256` | A reply passes exactly when it is a valid call of the class's own tool, and a rejection says why |
| `ActionProposer.FallbackIsAimed` | `p2_readonly_loop/action_proposer.py:348-353` | The deterministic fix is aimed at the site, with the class's own extras and no others |
| `ActionProposer.ObeyingTheExceptionEndsInTheFallback` | `p2_readonly_loop/action_proposer.py:161` | A model that follows the prompt and proposes a restart for want of a metric is always rejected and ends in the deterministic fix |
| `ActionProposer.PassedIsValid` | `p2_readonly_loop/action_proposer.py:214-256` | What a model chose passed the validator and uses the class's tool; disk-full then gets one replica |
| `ActionProposer.ProposalUsesTheMappedTool` | `p2_readonly_loop/action_proposer.py:94-101` | Whoever proposed it, the action uses the class's own tool, and disk-full ends with one replica |
| `ActionProposer.OnlyTheMagnitudeIsVetoed` | `p3_trust_action/p3_agent.py:976-1012` | For a proposal made for the diagnosed class the veto on the tool never fires: it goes out exactly when its magnitude is safe |

## Left out

- Fault injection itself, HTTP, streaming, JSON extraction, prompts and log output: external effects and formats.
- The weights of the random picks in the round generator: no property here depends on them; seen counts are kept, and they are not written to the manifest by the source either.
- Negative counts in `--plan`: a chunk's target is a natural number here, and the source passes a chunk with a negative target over like one with target zero.
- Waiting times of the batch runner (recency, settling, prompts) and its token and duration statistics.
- ISO and SQLite time strings: times are integers, and one call reads each clock at most once.
- Callers of `call_one` and `verify_login` that run at the same time: the run theorems are about calls one after the other. The lock is modelled with interleavings.
- QuotaRuns.DailyLimitIsKept: counts completed calls of `call_one`; a Gemini call may send a second HTTP request that is not counted by the source either. A failed call is logged with no tokens and no neurons, as in the source.
- Usage summaries and the other reporting queries of the quota tracker.
- The setters for manual overrides of trust: they bypass the invariants on purpose. A run may start from any database its lemma allows, so an override is a new start.
- Rows of the dimension A history, the reasons stored with holds and failures, and all update timestamps.
- bcrypt, TOTP, sessions and account administration: the password check is an arbitrary function.
- Floating point: confidences, accuracies, neurons and quantities are exact reals.
- Unicode: only ASCII digits and ASCII white space are recognised in quantities and names, where the source's pattern also accepts other decimal digits.
- The queries that load the calibration rows, and rounding of printed figures.
- The two tier checks of the trust gate (`p2_readonly_loop/trust_gate.py:40-70`): a comparison with one string each.
- A tool name in a model's reply that is not a JSON string: the source raises for a list or an object; here a reply names a string or nothing.
- The order in which the validator meets several bad parameters, and the wording of reasons: a rejection is one of six kinds.
- The background proposal comparison and the progress reports around `act` in the agent service: only the dispatch decision is modelled.
