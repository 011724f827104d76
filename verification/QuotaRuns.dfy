/**
 What holds over every run of calls made one after the other through the quota check:
 daily limits, the neuron budget, and the spacing of exhaustion notices.
 */
module QuotaRuns {
  import opened QuotaTracker

  /** Calls made one after the other on a clock that never goes back. */
  ghost predicate Sequential(calls: seq<Call>) {
    && (forall i :: 0 <= i < |calls| ==> calls[i].checkedAt <= calls[i].doneAt)
    && (forall i, j :: 0 <= i < j < |calls| ==> calls[i].doneAt <= calls[j].checkedAt)
  }

  /** The book after the first n calls of a run that starts with an empty database. */
  function BookAfter(calls: seq<Call>, n: nat): Book
    requires n <= |calls|
  {
    After(Book([], map[]), calls, n)
  }

  /** Call i was let through by the quota check. */
  ghost predicate SentAt(calls: seq<Call>, i: nat)
    requires i < |calls|
  {
    Sent(BookAfter(calls, i), calls[i])
  }

  lemma {:induction false} DayBounds(t: nat)
    ensures DayOf(t) * DAY_S <= t < NextMidnight(t) == (DayOf(t) + 1) * DAY_S
  {
  }

  lemma {:induction false} DaysInOrder(earlier: nat, later: nat)
    requires earlier <= later
    ensures DayOf(earlier) <= DayOf(later)
  {
  }

  lemma {:induction false} OneMoreRow(book: Book, call: Call)
    ensures Sent(book, call) ==>
              var longer := Booked(book, call).log; longer == book.log + [RowOf(call)] && longer[..|longer| - 1] == book.log
  {
  }

  /** Nothing is logged for a day later than the last call. */
  lemma {:induction false} NothingLoggedAhead(calls: seq<Call>, n: nat, key: UsageKey, provider: string)
    requires Sequential(calls) && n <= |calls|
    requires n > 0 ==> key.day > DayOf(calls[n - 1].doneAt)
    ensures TotalsOf(BookAfter(calls, n).log, key).calls == 0
    ensures PooledNeurons(BookAfter(calls, n).log, provider, key.day) == 0.0
  {
    if n > 0 {
      if n > 1 {
        DaysInOrder(calls[n - 2].doneAt, calls[n - 1].doneAt);
      }
      NothingLoggedAhead(calls, n - 1, key, provider);
      OneMoreRow(BookAfter(calls, n - 1), calls[n - 1]);
    }
  }

  /** A call checked on one day and logged on a later one finds that later day empty. */
  lemma {:induction false} NewDayIsEmpty(calls: seq<Call>, n: nat, source: Source)
    requires Sequential(calls) && n < |calls| && DayOf(calls[n].checkedAt) != DayOf(calls[n].doneAt)
    ensures TotalsOf(BookAfter(calls, n).log, UsageKey(source, DayOf(calls[n].doneAt))).calls == 0
    ensures PooledNeurons(BookAfter(calls, n).log, source.provider, DayOf(calls[n].doneAt)) == 0.0
  {
    DaysInOrder(calls[n].checkedAt, calls[n].doneAt);
    if n > 0 {
      DaysInOrder(calls[n - 1].doneAt, calls[n].checkedAt);
    }
    NothingLoggedAhead(calls, n, UsageKey(source, DayOf(calls[n].doneAt)), source.provider);
  }

  lemma {:induction false} LimitsArePositive(source: Source)
    requires source in KNOWN_DAILY_LIMITS
    ensures KNOWN_DAILY_LIMITS[source] >= 1
  {
  }

  /** A call checked and logged on the same day is sent below the limit only. */
  lemma {:induction false} LimitStep(book: Book, call: Call, source: Source, day: nat, limit: nat)
    requires source in KNOWN_DAILY_LIMITS && limit == KNOWN_DAILY_LIMITS[source]
    requires TotalsOf(book.log, UsageKey(source, day)).calls <= limit
    requires DayOf(call.doneAt) == day && DayOf(call.checkedAt) != day ==> TotalsOf(book.log, UsageKey(source, day)).calls == 0
    ensures TotalsOf(Booked(book, call).log, UsageKey(source, day)).calls <= limit
  {
    LimitsArePositive(source);
    OneMoreRow(book, call);
  }

  /**
   No day sees more calls to a source than its known limit, although a call that is
   checked before midnight may be logged after it.
   */
  lemma {:induction false} DailyLimitIsKept(calls: seq<Call>, n: nat, source: Source, day: nat)
    requires Sequential(calls) && n <= |calls| && source in KNOWN_DAILY_LIMITS
    ensures TotalsOf(BookAfter(calls, n).log, UsageKey(source, day)).calls <= KNOWN_DAILY_LIMITS[source]
  {
    LimitsArePositive(source);
    if n > 0 {
      DailyLimitIsKept(calls, n - 1, source, day);
      if DayOf(calls[n - 1].checkedAt) != DayOf(calls[n - 1].doneAt) {
        NewDayIsEmpty(calls, n - 1, source);
      }
      LimitStep(BookAfter(calls, n - 1), calls[n - 1], source, day, KNOWN_DAILY_LIMITS[source]);
    }
  }

  /** No answer of Cloudflare reports more neurons than that. */
  ghost predicate AnswersCostAtMost(calls: seq<Call>, cost: real) {
    forall i :: 0 <= i < |calls| && calls[i].source.provider == "cloudflare" && calls[i].reply.Answer? ==>
      calls[i].reply.neurons <= cost
  }

  /**
   The neurons recorded for Cloudflare in a day, over all its models, never exceed the
   budget less the safety threshold by more than what one call can cost.
   */
  lemma {:induction false} NeuronBudgetIsKept(calls: seq<Call>, n: nat, cost: real, day: nat)
    requires Sequential(calls) && n <= |calls| && cost >= 0.0
    requires AnswersCostAtMost(calls, cost)
    ensures PooledNeurons(BookAfter(calls, n).log, "cloudflare", day)
         <= CLOUDFLARE_DAILY_NEURON_BUDGET - CLOUDFLARE_NEURON_SAFETY_THRESHOLD + cost
  {
    if n > 0 {
      NeuronBudgetIsKept(calls, n - 1, cost, day);
      if DayOf(calls[n - 1].checkedAt) != DayOf(calls[n - 1].doneAt) {
        NewDayIsEmpty(calls, n - 1, calls[n - 1].source);
      }
      NeuronStep(BookAfter(calls, n - 1), calls[n - 1], cost, day);
    }
  }

  /** A Cloudflare call checked and logged on the same day is sent with the safety threshold still left. */
  lemma {:induction false} NeuronStep(book: Book, call: Call, cost: real, day: nat)
    requires cost >= 0.0 && RowOf(call).neurons <= cost
    requires PooledNeurons(book.log, "cloudflare", day) <= CLOUDFLARE_DAILY_NEURON_BUDGET - CLOUDFLARE_NEURON_SAFETY_THRESHOLD + cost
    requires DayOf(call.doneAt) == day && DayOf(call.checkedAt) != day && call.source.provider == "cloudflare"
             ==> PooledNeurons(book.log, "cloudflare", day) == 0.0
    ensures PooledNeurons(Booked(book, call).log, "cloudflare", day)
         <= CLOUDFLARE_DAILY_NEURON_BUDGET - CLOUDFLARE_NEURON_SAFETY_THRESHOLD + cost
  {
    OneMoreRow(book, call);
  }

  /** So with calls of at most the safety threshold, the whole budget is never overrun. */
  lemma {:induction false} BudgetIsNeverOverrun(calls: seq<Call>, n: nat, day: nat)
    requires Sequential(calls) && n <= |calls|
    requires AnswersCostAtMost(calls, CLOUDFLARE_NEURON_SAFETY_THRESHOLD)
    ensures PooledNeurons(BookAfter(calls, n).log, "cloudflare", day) <= CLOUDFLARE_DAILY_NEURON_BUDGET
  {
    NeuronBudgetIsKept(calls, n, CLOUDFLARE_NEURON_SAFETY_THRESHOLD, day);
  }

  // --- spacing of exhaustion notices ---

  /** Call i was sent and came back with the notice that the source is exhausted. */
  ghost predicate NoticeAt(calls: seq<Call>, i: nat)
    requires i < |calls|
  {
    SentAt(calls, i) && IsExhaustionNotice(calls[i])
  }

  ghost predicate Marked(book: Book, source: Source, markedAt: nat) {
    source in book.marks && book.marks[source] == MarkAt(markedAt)
  }

  lemma {:induction false} NoticeMarks(calls: seq<Call>, i: nat)
    requires i < |calls| && NoticeAt(calls, i)
    ensures Marked(BookAfter(calls, i + 1), calls[i].source, calls[i].doneAt)
  {
  }

  /** A call leaves the mark of a source alone, unless it is sent to that source after the probe time. */
  lemma {:induction false} MarkStep(book: Book, call: Call, source: Source, markedAt: nat)
    requires Marked(book, source, markedAt)
    ensures Marked(Booked(book, call), source, markedAt) || call.checkedAt >= MarkAt(markedAt).nextProbeAt
    ensures Sent(book, call) && call.source == source ==> call.checkedAt >= MarkAt(markedAt).nextProbeAt
  {
  }

  /** A mark stands until its probe time has passed. */
  lemma {:induction false} MarkStands(calls: seq<Call>, i: nat, j: nat, source: Source, markedAt: nat)
    requires Sequential(calls) && i < j <= |calls| && Marked(BookAfter(calls, i + 1), source, markedAt)
    ensures Marked(BookAfter(calls, j), source, markedAt) || calls[j - 1].doneAt >= MarkAt(markedAt).nextProbeAt
  {
    if j > i + 1 {
      MarkStands(calls, i, j - 1, source, markedAt);
      if Marked(BookAfter(calls, j - 1), source, markedAt) {
        MarkStep(BookAfter(calls, j - 1), calls[j - 1], source, markedAt);
      }
    }
  }

  /** No request is sent to a source between a notice and its probe time. */
  lemma {:induction false} NothingSentBeforeTheProbe(calls: seq<Call>, i: nat, j: nat)
    requires Sequential(calls) && i < j < |calls| && NoticeAt(calls, i)
    requires SentAt(calls, j) && calls[j].source == calls[i].source
    ensures calls[j].checkedAt >= MarkAt(calls[i].doneAt).nextProbeAt
  {
    NoticeMarks(calls, i);
    MarkStands(calls, i, j, calls[i].source, calls[i].doneAt);
    if Marked(BookAfter(calls, j), calls[i].source, calls[i].doneAt) {
      MarkStep(BookAfter(calls, j), calls[j], calls[i].source, calls[i].doneAt);
    }
  }

  /**
   Two notices for one source on the same day are at least fifteen minutes apart,
   whatever successes and failures come in between.
   */
  lemma {:induction false} NoticesAreSpaced(calls: seq<Call>, i: nat, j: nat)
    requires Sequential(calls) && i < j < |calls| && NoticeAt(calls, i) && NoticeAt(calls, j)
    requires calls[i].source == calls[j].source && DayOf(calls[i].doneAt) == DayOf(calls[j].doneAt)
    ensures calls[j].doneAt >= calls[i].doneAt + PROBE_COOLDOWN_S
  {
    NothingSentBeforeTheProbe(calls, i, j);
    DayBounds(calls[j].doneAt);
  }

  /** Positions, in order, of notices for one source on one day. */
  ghost predicate NoticesOn(calls: seq<Call>, at: seq<nat>, source: Source, day: nat) {
    && (forall k :: 0 <= k < |at| ==>
          at[k] < |calls| && NoticeAt(calls, at[k]) && calls[at[k]].source == source && DayOf(calls[at[k]].doneAt) == day)
    && (forall k :: 0 < k < |at| ==> at[k - 1] < at[k])
  }

  lemma {:induction false} NoticesFillTheDay(calls: seq<Call>, at: seq<nat>, source: Source, day: nat, k: nat)
    requires Sequential(calls) && NoticesOn(calls, at, source, day) && k < |at|
    ensures calls[at[k]].doneAt >= day * DAY_S + PROBE_COOLDOWN_S * k
  {
    if k == 0 {
      DayBounds(calls[at[0]].doneAt);
    } else {
      var earlier, later := at[k - 1], at[k];
      NoticesFillTheDay(calls, at, source, day, k - 1);
      assert earlier < later && calls[earlier].source == calls[later].source;
      NoticesAreSpaced(calls, at[k - 1], at[k]);
    }
  }

  /** At most 96 notices for a source fall on one day. */
  lemma {:induction false} AtMostNinetySixNotices(calls: seq<Call>, at: seq<nat>, source: Source, day: nat)
    requires Sequential(calls) && NoticesOn(calls, at, source, day)
    ensures |at| <= 96
  {
    if at != [] {
      NoticesFillTheDay(calls, at, source, day, |at| - 1);
      DayBounds(calls[at[|at| - 1]].doneAt);
    }
  }

  // --- the aggregates are what was sent ---

  /** Calls, tokens and neurons of a source on a day, counted over the calls that were sent. */
  ghost function UsageSent(calls: seq<Call>, n: nat, source: Source, day: nat): Usage
    requires n <= |calls|
  {
    if n == 0 then Usage(0, 0, 0.0)
    else
      var before, call := UsageSent(calls, n - 1, source, day), calls[n - 1];
      if !SentAt(calls, n - 1) || call.source != source || call.doneAt / 86400 != day then before
      else if !call.reply.Answer? then before.(calls := before.calls + 1)
      else Usage(before.calls + 1, before.tokens + call.reply.tokens,
                 before.neurons + (if source.provider == "cloudflare" then call.reply.neurons else 0.0))
  }

  /** Neurons of the answers of a provider on a day, over all its models. */
  ghost function NeuronsSent(calls: seq<Call>, n: nat, day: nat): real
    requires n <= |calls|
  {
    if n == 0 then 0.0
    else
      var call := calls[n - 1];
      NeuronsSent(calls, n - 1, day)
      + (if && SentAt(calls, n - 1) && call.source.provider == "cloudflare"
            && call.doneAt / 86400 == day && call.reply.Answer?
         then call.reply.neurons else 0.0)
  }

  lemma {:induction false} UsageStep(book: Book, call: Call, key: UsageKey)
    ensures var was := TotalsOf(book.log, key);
            TotalsOf(Booked(book, call).log, key)
            == if !Sent(book, call) || call.source != key.source || call.doneAt / 86400 != key.day then was
               else if call.reply.Answer? then
                 Usage(was.calls + 1, was.tokens + call.reply.tokens,
                       was.neurons + (if call.source.provider == "cloudflare" then call.reply.neurons else 0.0))
               else Usage(was.calls + 1, was.tokens, was.neurons)
  {
    OneMoreRow(book, call);
  }

  lemma {:induction false} PoolStep(book: Book, call: Call, day: nat)
    ensures PooledNeurons(Booked(book, call).log, "cloudflare", day)
         == PooledNeurons(book.log, "cloudflare", day)
            + (if && Sent(book, call) && call.source.provider == "cloudflare"
                  && call.doneAt / 86400 == day && call.reply.Answer?
               then call.reply.neurons else 0.0)
  {
    OneMoreRow(book, call);
  }

  /**
   The daily usage of a source, in the log and so in the aggregate rows, counts the calls that were
   sent and what they were answered.
   */
  lemma {:induction false} UsageIsWhatWasSent(calls: seq<Call>, n: nat, source: Source, day: nat)
    requires n <= |calls|
    ensures TotalsOf(BookAfter(calls, n).log, UsageKey(source, day)) == UsageSent(calls, n, source, day)
  {
    if n > 0 {
      UsageIsWhatWasSent(calls, n - 1, source, day);
      UsageStep(BookAfter(calls, n - 1), calls[n - 1], UsageKey(source, day));
    }
  }

  lemma {:induction false} PoolIsWhatWasAnswered(calls: seq<Call>, n: nat, day: nat)
    requires n <= |calls|
    ensures PooledNeurons(BookAfter(calls, n).log, "cloudflare", day) == NeuronsSent(calls, n, day)
  {
    if n > 0 {
      PoolIsWhatWasAnswered(calls, n - 1, day);
      PoolStep(BookAfter(calls, n - 1), calls[n - 1], day);
    }
  }

  // --- exactly when a call is refused ---

  lemma {:induction false} MarkAfter(book: Book, call: Call, source: Source)
    ensures source in Booked(book, call).marks ==>
              (source in book.marks && Booked(book, call).marks[source] == book.marks[source])
              || (Sent(book, call) && IsExhaustionNotice(call) && call.source == source
                  && Booked(book, call).marks[source] == MarkAt(call.doneAt))
  {
  }

  /** Every mark was set by a notice. */
  lemma {:induction false} MarkHasANotice(calls: seq<Call>, n: nat, source: Source) returns (i: nat)
    requires n <= |calls| && source in BookAfter(calls, n).marks
    ensures i < n && NoticeAt(calls, i) && calls[i].source == source
    ensures BookAfter(calls, n).marks[source] == MarkAt(calls[i].doneAt)
  {
    var before, call := BookAfter(calls, n - 1), calls[n - 1];
    MarkAfter(before, call, source);
    if source in before.marks && BookAfter(calls, n).marks[source] == before.marks[source] {
      i := MarkHasANotice(calls, n - 1, source);
    } else {
      i := n - 1;
    }
  }

  /** Call i is a notice for the source of call j, which is checked within fifteen minutes of it and on its day. */
  ghost predicate RecentNotice(calls: seq<Call>, i: nat, j: nat)
    requires i < j < |calls|
  {
    && NoticeAt(calls, i) && calls[i].source == calls[j].source
    && calls[j].checkedAt < calls[i].doneAt + 900
    && calls[j].checkedAt / 86400 == calls[i].doneAt / 86400
  }

  lemma {:induction false} BlockedBy(book: Book, source: Source, markedAt: nat, now: nat)
    requires Marked(book, source, markedAt) && markedAt <= now
    ensures Blocked(book.marks, source, now) <==> now < markedAt + 900 && now / 86400 == markedAt / 86400
  {
    DayBounds(markedAt);
    DayBounds(now);
    if now < NextMidnight(markedAt) {
      SameDay(markedAt, now);
    }
  }

  lemma {:induction false} SameDay(earlier: nat, later: nat)
    requires earlier <= later < NextMidnight(earlier)
    ensures DayOf(earlier) == DayOf(later)
  {
    DaysInOrder(earlier, later);
  }

  lemma {:induction false} EarlierIsDone(calls: seq<Call>, i: nat, j: nat)
    requires Sequential(calls) && i < j < |calls|
    ensures calls[i].doneAt <= calls[j - 1].doneAt <= calls[j].checkedAt
  {
    if i < j - 1 {
      assert calls[i].doneAt <= calls[j - 1].checkedAt;
    }
  }

  /**
   A call finds its source marked as exhausted exactly when a notice for it came in the last
   fifteen minutes and on the same day.
   */
  lemma {:induction false} BlockedExactlyAfterANotice(calls: seq<Call>, j: nat)
    requires Sequential(calls) && j < |calls|
    ensures Judge(BookAfter(calls, j), calls[j].source, calls[j].checkedAt).MarkedExhausted?
       <==> exists i :: 0 <= i < j && RecentNotice(calls, i, j)
  {
    var book, source, now := BookAfter(calls, j), calls[j].source, calls[j].checkedAt;
    if i :| 0 <= i < j && RecentNotice(calls, i, j) {
      NoticeMarks(calls, i);
      MarkStands(calls, i, j, source, calls[i].doneAt);
      EarlierIsDone(calls, i, j);
      ProbeTime(calls[i].doneAt, now);
      BlockedBy(book, source, calls[i].doneAt, now);
    } else if Blocked(book.marks, source, now) {
      var i := MarkHasANotice(calls, j, source);
      EarlierIsDone(calls, i, j);
      BlockedBy(book, source, calls[i].doneAt, now);
      assert RecentNotice(calls, i, j);
    }
  }

  lemma {:induction false} ProbeTime(markedAt: nat, now: nat)
    requires now < markedAt + 900 && now / 86400 == markedAt / 86400
    ensures now < MarkAt(markedAt).nextProbeAt
  {
    DayBounds(now);
  }

  /**
   A call is sent exactly when no notice for its source came in the last fifteen minutes
   of the day, Cloudflare's models together have used at most 9600 neurons of the day, and
   a known daily limit is not used up; and from four fifths of a limit on it is sent with
   a warning.
   */
  lemma {:induction false} SentExactlyWhen(calls: seq<Call>, j: nat)
    requires Sequential(calls) && j < |calls|
    ensures var source, day := calls[j].source, calls[j].checkedAt / 86400;
            var used := UsageSent(calls, j, source, day).calls;
            && (SentAt(calls, j)
                <==> && !(exists i :: 0 <= i < j && RecentNotice(calls, i, j))
                     && (source.provider == "cloudflare" ==> NeuronsSent(calls, j, day) <= 9600.0)
                     && (source in KNOWN_DAILY_LIMITS ==> used < KNOWN_DAILY_LIMITS[source]))
            && (Judge(BookAfter(calls, j), source, calls[j].checkedAt).Warn?
                <==> SentAt(calls, j) && source in KNOWN_DAILY_LIMITS && 10 * used >= 8 * KNOWN_DAILY_LIMITS[source])
  {
    BlockedExactlyAfterANotice(calls, j);
    UsageIsWhatWasSent(calls, j, calls[j].source, calls[j].checkedAt / 86400);
    PoolIsWhatWasAnswered(calls, j, calls[j].checkedAt / 86400);
  }

  /** A refusal names the first reason there is: the notice, then the neurons, then the limit. */
  lemma {:induction false} RefusalsSayWhy(calls: seq<Call>, j: nat)
    requires Sequential(calls) && j < |calls|
    ensures var source, day := calls[j].source, calls[j].checkedAt / 86400;
            var verdict := Judge(BookAfter(calls, j), source, calls[j].checkedAt);
            var noticed := exists i :: 0 <= i < j && RecentNotice(calls, i, j);
            var spent := source.provider == "cloudflare" && NeuronsSent(calls, j, day) > 9600.0;
            && (verdict.MarkedExhausted? <==> noticed)
            && (verdict.OutOfNeurons? <==> !noticed && spent)
            && (verdict.AtDailyLimit? <==> !noticed && !spent && !SentAt(calls, j))
  {
    SentExactlyWhen(calls, j);
    BlockedExactlyAfterANotice(calls, j);
    PoolIsWhatWasAnswered(calls, j, calls[j].checkedAt / 86400);
  }

  /**
   So what comes back: an answer succeeds, anything else sent is a failure of the provider, and the
   rest is refused unsent.
   */
  lemma {:induction false} ResultsAreWhatCameBack(calls: seq<Call>, j: nat)
    requires j < |calls|
    ensures var result := ResultAt(Book([], map[]), calls, j);
            && (result == Success <==> SentAt(calls, j) && calls[j].reply.Answer?)
            && (result == QuotaExhausted <==> !SentAt(calls, j))
  {
  }
}
