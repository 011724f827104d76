/**
 Quota accounting (quota_tracker.py) and the calls made through it (call_one and
 call_chain of model_backend.py).

 The specification knows the per-call log and the exhaustion marks only. The tables
 the source reads on its fast path, one usage row per provider, model and day, are a
 field of the class, and its invariant says that they agree with the log.
 Times are seconds since an epoch that starts at midnight UTC.
 */
module QuotaTracker {
  import opened Options

  const DAY_S := 86400
  const PROBE_COOLDOWN_S := 15 * 60
  const CLOUDFLARE_DAILY_NEURON_BUDGET := 10000.0
  const CLOUDFLARE_NEURON_SAFETY_THRESHOLD := 400.0

  datatype Source = Source(provider: string, model: string)

  const KNOWN_DAILY_LIMITS := map[
    Source("gemini", "gemini-3-flash-preview") := 20,
    Source("groq", "llama-3.3-70b-versatile") := 1000,
    Source("groq", "openai/gpt-oss-120b") := 1000,
    Source("openrouter", "openai/gpt-oss-20b:free") := 50
  ]

  function DayOf(t: nat): nat {
    t / DAY_S
  }

  function NextMidnight(t: nat): nat {
    (DayOf(t) + 1) * DAY_S
  }

  datatype LogRow = LogRow(source: Source, tokens: int, neurons: real, at: nat)

  datatype UsageKey = UsageKey(source: Source, day: nat)

  datatype Usage = Usage(calls: nat, tokens: int, neurons: real)

  datatype Mark = Mark(exhaustedUntil: nat, nextProbeAt: nat)

  function KeyOf(row: LogRow): UsageKey {
    UsageKey(row.source, DayOf(row.at))
  }

  // --- the daily aggregate and the log ---

  /** What the log says about one source on one day. */
  function TotalsOf(log: seq<LogRow>, key: UsageKey): Usage {
    if log == [] then Usage(0, 0, 0.0)
    else
      var row := log[|log| - 1];
      var before := TotalsOf(log[..|log| - 1], key);
      if KeyOf(row) == key then Usage(before.calls + 1, before.tokens + row.tokens, before.neurons + row.neurons)
      else before
  }

  ghost predicate Agrees(usage: map<UsageKey, Usage>, log: seq<LogRow>) {
    forall key :: if key in usage then usage[key] == TotalsOf(log, key) && usage[key].calls > 0
                  else TotalsOf(log, key) == Usage(0, 0, 0.0)
  }

  function Upsert(usage: map<UsageKey, Usage>, row: LogRow): map<UsageKey, Usage> {
    var key := KeyOf(row);
    if key in usage
    then usage[key := Usage(usage[key].calls + 1, usage[key].tokens + row.tokens, usage[key].neurons + row.neurons)]
    else usage[key := Usage(1, row.tokens, row.neurons)]
  }

  /** One upsert per logged call keeps every aggregate row equal to the fold of its part of the log. */
  lemma {:induction false} UpsertAgrees(usage: map<UsageKey, Usage>, log: seq<LogRow>, row: LogRow)
    requires Agrees(usage, log)
    ensures Agrees(Upsert(usage, row), log + [row])
  {
    assert (log + [row])[..|log|] == log;
  }

  // --- neurons are pooled over the models of a provider ---

  /** Neurons logged for a provider on a day, over all its models. */
  function PooledNeurons(log: seq<LogRow>, provider: string, day: nat): real {
    if log == [] then 0.0
    else
      var row := log[|log| - 1];
      PooledNeurons(log[..|log| - 1], provider, day)
      + (if row.source.provider == provider && DayOf(row.at) == day then row.neurons else 0.0)
  }

  ghost function NeuronsOver(log: seq<LogRow>, keys: set<UsageKey>): real {
    if keys == {} then 0.0
    else
      var key :| key in keys;
      TotalsOf(log, key).neurons + NeuronsOver(log, keys - {key})
  }

  lemma {:induction false} NeuronsSplit(log: seq<LogRow>, keys: set<UsageKey>, key: UsageKey)
    requires key in keys
    ensures NeuronsOver(log, keys) == TotalsOf(log, key).neurons + NeuronsOver(log, keys - {key})
  {
    var first :| first in keys && NeuronsOver(log, keys) == TotalsOf(log, first).neurons + NeuronsOver(log, keys - {first});
    if first != key {
      NeuronsSplit(log, keys - {first}, key);
      NeuronsSplit(log, keys - {key}, first);
      assert keys - {first} - {key} == keys - {key} - {first};
    }
  }

  lemma {:induction false} NeuronsOverOneMore(log: seq<LogRow>, row: LogRow, keys: set<UsageKey>)
    ensures NeuronsOver(log + [row], keys) == NeuronsOver(log, keys) + (if KeyOf(row) in keys then row.neurons else 0.0)
  {
    if keys != {} {
      var key :| key in keys;
      NeuronsSplit(log, keys, key);
      NeuronsSplit(log + [row], keys, key);
      NeuronsOverOneMore(log, row, keys - {key});
      assert (log + [row])[..|log|] == log;
    }
  }

  lemma {:induction false} NothingLogged(keys: set<UsageKey>)
    ensures NeuronsOver([], keys) == 0.0
  {
    if keys != {} {
      var key :| key in keys;
      NeuronsSplit([], keys, key);
      NothingLogged(keys - {key});
    }
  }

  /** Adding up the aggregate rows of a provider for a day gives what the log holds for it. */
  lemma {:induction false} PoolOfRows(log: seq<LogRow>, keys: set<UsageKey>, provider: string, day: nat)
    requires forall key :: key in keys ==> key.source.provider == provider && key.day == day
    requires forall row :: row in log && row.source.provider == provider && DayOf(row.at) == day ==> KeyOf(row) in keys
    ensures NeuronsOver(log, keys) == PooledNeurons(log, provider, day)
  {
    if log == [] {
      NothingLogged(keys);
    } else {
      var init, row := log[..|log| - 1], log[|log| - 1];
      PoolOfRows(init, keys, provider, day);
      NeuronsOverOneMore(init, row, keys);
      assert log == init + [row];
    }
  }

  lemma {:induction false} LoggedKeysCount(log: seq<LogRow>, row: LogRow)
    requires row in log
    ensures TotalsOf(log, KeyOf(row)).calls > 0
  {
    if row != log[|log| - 1] {
      LoggedKeysCount(log[..|log| - 1], row);
    }
  }

  // --- one call through the quota check ---

  /** What the decisions depend on: the log of calls sent, and the marks of known exhaustion. */
  datatype Book = Book(log: seq<LogRow>, marks: map<Source, Mark>)

  datatype Verdict = Fine | Warn | MarkedExhausted | OutOfNeurons | AtDailyLimit {
    predicate Refuses() {
      !Fine? && !Warn?
    }
  }

  /** The mark still stands: neither its probe time nor the end of its day has come. */
  predicate Blocked(marks: map<Source, Mark>, source: Source, now: nat) {
    source in marks && now < marks[source].nextProbeAt && now < marks[source].exhaustedUntil
  }

  function Judge(book: Book, source: Source, now: nat): Verdict {
    var used := TotalsOf(book.log, UsageKey(source, DayOf(now))).calls;
    if Blocked(book.marks, source, now) then MarkedExhausted
    else if source.provider == "cloudflare"
            && CLOUDFLARE_DAILY_NEURON_BUDGET - PooledNeurons(book.log, source.provider, DayOf(now))
               < CLOUDFLARE_NEURON_SAFETY_THRESHOLD then OutOfNeurons
    else if source !in KNOWN_DAILY_LIMITS then Fine
    else if used >= KNOWN_DAILY_LIMITS[source] then AtDailyLimit
    else if 5 * used >= 4 * KNOWN_DAILY_LIMITS[source] then Warn
    else Fine
  }

  /** The provider's reply; exhaustionNotice is Cloudflare's 4006 notice in the body of a 429. */
  datatype Reply = Answer(tokens: int, neurons: real) | RateLimited(exhaustionNotice: bool) | OtherFailure

  datatype Result = Success | ProviderFailure | QuotaExhausted

  /** One call_one: the quota is checked at checkedAt; the reply is in, logged and acted on at doneAt. */
  datatype Call = Call(source: Source, checkedAt: nat, doneAt: nat, reply: Reply)

  predicate Sent(book: Book, call: Call) {
    !Judge(book, call.source, call.checkedAt).Refuses()
  }

  /** The reply is the notice that the source is exhausted for the day. */
  predicate IsExhaustionNotice(call: Call) {
    call.source.provider == "cloudflare" && call.reply.RateLimited? && call.reply.exhaustionNotice
  }

  function MarkAt(now: nat): Mark {
    var until := NextMidnight(now);
    Mark(until, if now + PROBE_COOLDOWN_S <= until then now + PROBE_COOLDOWN_S else until)
  }

  /** Failed calls are logged with no cost, and only Cloudflare reports neurons. */
  function RowOf(call: Call): LogRow {
    if call.reply.Answer? then
      LogRow(call.source, call.reply.tokens, if call.source.provider == "cloudflare" then call.reply.neurons else 0.0, call.doneAt)
    else LogRow(call.source, 0, 0.0, call.doneAt)
  }

  function ResultOf(book: Book, call: Call): Result {
    if !Sent(book, call) then QuotaExhausted else if call.reply.Answer? then Success else ProviderFailure
  }

  function Booked(book: Book, call: Call): Book {
    if !Sent(book, call) then book
    else
      Book(book.log + [RowOf(call)],
           if call.reply.Answer? then book.marks - {call.source}
           else if IsExhaustionNotice(call) then book.marks[call.source := MarkAt(call.doneAt)]
           else book.marks)
  }

  /** The book after the first n calls. */
  function After(start: Book, calls: seq<Call>, n: nat): Book
    requires n <= |calls|
  {
    if n == 0 then start else Booked(After(start, calls, n - 1), calls[n - 1])
  }

  function ResultAt(start: Book, calls: seq<Call>, i: nat): Result
    requires i < |calls|
  {
    ResultOf(After(start, calls, i), calls[i])
  }

  /** Each of these entries failed, with its own result, after the ones before it. */
  ghost predicate FailInOrder(start: Book, calls: seq<Call>, failures: seq<Result>)
    requires |failures| <= |calls|
  {
    forall i :: 0 <= i < |failures| ==> failures[i] == ResultAt(start, calls, i) != Success
  }

  /** All entries so far failed, and this is the book they left. */
  ghost predicate AllFailed(start: Book, calls: seq<Call>, failures: seq<Result>, now: Book) {
    |failures| <= |calls| && FailInOrder(start, calls, failures) && now == After(start, calls, |failures|)
  }

  lemma {:induction false} FailsToo(start: Book, calls: seq<Call>, failures: seq<Result>, result: Result)
    requires |failures| < |calls| && FailInOrder(start, calls, failures)
    requires result == ResultAt(start, calls, |failures|) && result != Success
    ensures FailInOrder(start, calls, failures + [result])
  {
    var more := failures + [result];
    forall i | 0 <= i < |more|
      ensures more[i] == ResultAt(start, calls, i) != Success
    {
      if i < |failures| {
        assert more[i] == failures[i];
      }
    }
  }

  lemma {:induction false} OneCallMore(start: Book, calls: seq<Call>, failures: seq<Result>, now: Book)
    requires |failures| < |calls| && AllFailed(start, calls, failures, now)
    ensures var result, book := ResultOf(now, calls[|failures|]), Booked(now, calls[|failures|]);
            && result == ResultAt(start, calls, |failures|) && book == After(start, calls, |failures| + 1)
            && (result != Success ==> AllFailed(start, calls, failures + [result], book))
  {
    var result := ResultAt(start, calls, |failures|);
    if result != Success {
      FailsToo(start, calls, failures, result);
    }
  }

  class QuotaDatabase {
    var usage: map<UsageKey, Usage>
    var log: seq<LogRow>
    var marks: map<Source, Mark>

    ghost predicate Valid()
      reads this
    {
      Agrees(usage, log)
    }

    ghost function Contents(): Book
      reads this
    {
      Book(log, marks)
    }

    constructor ()
      ensures Valid() && Contents() == Book([], map[])
    {
      usage, log, marks := map[], [], map[];
    }

    method RecordCall(source: Source, tokens: int, neurons: real, now: nat)
      requires Valid()
      modifies this`usage, this`log
      ensures Valid() && log == old(log) + [LogRow(source, tokens, neurons, now)]
    {
      var row, key := LogRow(source, tokens, neurons, now), UsageKey(source, DayOf(now));
      UpsertAgrees(usage, log, row);
      log := log + [row];
      if key in usage {
        var u := usage[key];
        usage := usage[key := Usage(u.calls + 1, u.tokens + tokens, u.neurons + neurons)];
      } else {
        usage := usage[key := Usage(1, tokens, neurons)];
      }
    }

    method MarkExhausted(source: Source, now: nat)
      modifies this`marks
      ensures marks == old(marks)[source := MarkAt(now)]
    {
      var until := NextMidnight(now);
      var probe := now + PROBE_COOLDOWN_S;
      if until < probe {
        probe := until;
      }
      marks := marks[source := Mark(until, probe)];
    }

    method ClearExhausted(source: Source)
      modifies this`marks
      ensures marks == old(marks) - {source}
    {
      marks := marks - {source};
    }

    /** SUM(neurons) over the aggregate rows of a provider for the day. */
    method TodayNeuronUsage(provider: string, now: nat) returns (sum: real)
      requires Valid()
      ensures sum == PooledNeurons(log, provider, DayOf(now))
    {
      var rows := set key | key in usage && key.source.provider == provider && key.day == DayOf(now);
      var rest := rows;
      sum := 0.0;
      while rest != {}
        invariant rest <= rows && sum + NeuronsOver(log, rest) == NeuronsOver(log, rows)
        decreases rest
      {
        var key :| key in rest;
        NeuronsSplit(log, rest, key);
        sum := sum + usage[key].neurons;
        rest := rest - {key};
      }
      forall row | row in log && row.source.provider == provider && DayOf(row.at) == DayOf(now)
        ensures KeyOf(row) in rows
      {
        LoggedKeysCount(log, row);
      }
      PoolOfRows(log, rows, provider, DayOf(now));
    }

    /** Decides from the aggregate rows what the specification decides from the log. */
    method CheckQuota(source: Source, now: nat) returns (verdict: Verdict)
      requires Valid()
      ensures verdict == Judge(Contents(), source, now)
    {
      if source in marks && now < marks[source].nextProbeAt && now < marks[source].exhaustedUntil {
        return MarkedExhausted;
      }
      if source.provider == "cloudflare" {
        var used := TodayNeuronUsage(source.provider, now);
        if CLOUDFLARE_DAILY_NEURON_BUDGET - used < CLOUDFLARE_NEURON_SAFETY_THRESHOLD {
          return OutOfNeurons;
        }
      }
      var key := UsageKey(source, DayOf(now));
      var used := if key in usage then usage[key].calls else 0;
      if source !in KNOWN_DAILY_LIMITS {
        return Fine;
      }
      if used >= KNOWN_DAILY_LIMITS[source] {
        return AtDailyLimit;
      }
      return if 5 * used >= 4 * KNOWN_DAILY_LIMITS[source] then Warn else Fine;
    }

    method CallOne(call: Call) returns (result: Result)
      requires Valid()
      modifies this
      ensures Valid()
      ensures Contents() == Booked(old(Contents()), call) && result == ResultOf(old(Contents()), call)
    {
      var verdict := CheckQuota(call.source, call.checkedAt);
      if verdict.Refuses() {
        return QuotaExhausted;
      }
      if IsExhaustionNotice(call) {
        MarkExhausted(call.source, call.doneAt);
      }
      var row := RowOf(call);
      RecordCall(row.source, row.tokens, row.neurons, row.at);
      if call.reply.Answer? {
        ClearExhausted(call.source);
        return Success;
      }
      return ProviderFailure;
    }

    /** Tries the entries of a chain in order and stops at the first success; calls[i] is what happens at entry i. */
    method CallChain(calls: seq<Call>) returns (winner: Option<nat>, failures: seq<Result>)
      requires Valid()
      modifies this
      ensures Valid()
      ensures |failures| <= |calls| && FailInOrder(old(Contents()), calls, failures)
      ensures winner.Some? ==>
                && winner.value == |failures| < |calls|
                && ResultAt(old(Contents()), calls, winner.value) == Success
                && Contents() == After(old(Contents()), calls, winner.value + 1)
      ensures winner.None? ==> |failures| == |calls| && Contents() == After(old(Contents()), calls, |calls|)
    {
      ghost var start := Contents();
      failures := [];
      for i := 0 to |calls|
        invariant Valid() && |failures| == i && AllFailed(start, calls, failures, Contents())
      {
        OneCallMore(start, calls, failures, Contents());
        var result := CallOne(calls[i]);
        if result == Success {
          return Some(i), failures;
        }
        failures := failures + [result];
      }
      return None, failures;
    }
  }
}
