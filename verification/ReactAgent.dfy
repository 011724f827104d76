/**
 The diagnosis loop of react_agent.py: each provider of the chain gets up to five turns
 of its own, and only a provider failure hands the episode to the next one.

 Replies of the models and results of the tools are arbitrary streams, indexed by the
 number of the call, so every statement holds for every behaviour of models and tools.
 */
module ReactAgent {
  import opened Options

  const MAX_TURNS := 5
  const MAX_UNPARSEABLE := 2

  // --- observations and the nudges they cause ---

  datatype FieldValue = List(length: nat) | Flag(b: bool) | Num(value: real) | Text(text: string) | Null

  /** A tool result: an object with fields, or any other JSON value. */
  datatype Observation = Object(fields: map<string, FieldValue>) | Other

  datatype Threshold = Threshold(field: string, value: real, diagnosis: string)

  /** The tool whose flags count, the fields that settle a class by themselves, and the numeric cut-offs in order. */
  datatype Guidance = Guidance(flagTool: string, strongFields: set<string>, thresholds: seq<Threshold>)

  predicate IsTruthy(v: FieldValue) {
    match v
    case List(n) => n > 0
    case Flag(b) => b
    case Num(x) => x != 0.0
    case Text(t) => t != ""
    case Null => false
  }

  predicate HasStrongSignal(g: Guidance, tool: string, seen: Observation) {
    tool == g.flagTool && seen.Object? && exists f :: f in g.strongFields && f in seen.fields && IsTruthy(seen.fields[f])
  }

  /** A flag counts as the number 0 or 1. */
  function NumberIn(seen: Observation, field: string): Option<real> {
    if !seen.Object? || field !in seen.fields then None
    else match seen.fields[field]
         case Num(x) => Some(x)
         case Flag(b) => Some(if b then 1.0 else 0.0)
         case _ => None
  }

  predicate Reaches(seen: Observation, t: Threshold) {
    NumberIn(seen, t.field).Some? && NumberIn(seen, t.field).value >= t.value
  }

  /** The first cut-off from position i on that the observation reaches. */
  function HitFrom(thresholds: seq<Threshold>, seen: Observation, i: nat): Option<Threshold>
    requires i <= |thresholds|
    decreases |thresholds| - i
  {
    if i == |thresholds| then None
    else if Reaches(seen, thresholds[i]) then Some(thresholds[i])
    else HitFrom(thresholds, seen, i + 1)
  }

  method NumericThresholdHit(thresholds: seq<Threshold>, seen: Observation) returns (hit: Option<Threshold>)
    ensures hit == HitFrom(thresholds, seen, 0)
    ensures hit.None? <==> forall i :: 0 <= i < |thresholds| ==> !Reaches(seen, thresholds[i])
    ensures hit.Some? ==>
              exists i :: 0 <= i < |thresholds| && hit.value == thresholds[i] && Reaches(seen, thresholds[i])
                          && forall j :: 0 <= j < i ==> !Reaches(seen, thresholds[j])
  {
    for i := 0 to |thresholds|
      invariant HitFrom(thresholds, seen, 0) == HitFrom(thresholds, seen, i)
      invariant forall j :: 0 <= j < i ==> !Reaches(seen, thresholds[j])
    {
      if Reaches(seen, thresholds[i]) {
        return Some(thresholds[i]);
      }
    }
    return None;
  }

  /** A number reaches a cut-off from the cut-off on; a flag counts as one or zero, and nothing else counts. */
  lemma {:induction false} CutOffsAreReachedFromTheirValueOn(fields: map<string, FieldValue>, t: Threshold)
    requires t.field in fields
    ensures var reached := Reaches(Object(fields), t);
            match fields[t.field]
            case Num(x) => reached <==> x >= t.value
            case Flag(b) => reached <==> (if b then 1.0 else 0.0) >= t.value
            case _ => !reached
    ensures !Reaches(Object(fields - {t.field}), t) && !Reaches(Other, t)
  {
  }

  /** Only the listed fields of the flag tool's result are a strong signal, and one that is set is enough. */
  lemma {:induction false} StrongSignalsAreListed(g: Guidance, tool: string, fields: map<string, FieldValue>, f: string)
    ensures HasStrongSignal(g, tool, Object(fields)) ==> tool == g.flagTool && !(g.strongFields !! fields.Keys)
    ensures f in g.strongFields ==>
              && HasStrongSignal(g, g.flagTool, Object(fields[f := Flag(true)]))
              && HasStrongSignal(g, g.flagTool, Object(fields[f := List(1)]))
              && (HasStrongSignal(g, tool, Object(fields[f := Flag(false)])) <==> HasStrongSignal(g, tool, Object(fields - {f})))
              && (HasStrongSignal(g, tool, Object(fields[f := List(0)])) <==> HasStrongSignal(g, tool, Object(fields - {f})))
    ensures f !in g.strongFields ==>
              (HasStrongSignal(g, tool, Object(fields)) <==> HasStrongSignal(g, tool, Object(fields - {f})))
  {
    if f in g.strongFields {
      assert IsTruthy(fields[f := Flag(true)][f]) && IsTruthy(fields[f := List(1)][f]);
    }
    SameSignal(g, tool, fields[f := Flag(false)], fields - {f});
    SameSignal(g, tool, fields[f := List(0)], fields - {f});
    if f !in g.strongFields {
      SameSignal(g, tool, fields, fields - {f});
    }
  }

  lemma {:induction false} SameSignal(g: Guidance, tool: string, fields: map<string, FieldValue>,
      other: map<string, FieldValue>)
    requires forall f :: f in g.strongFields ==>
               ((f in fields && IsTruthy(fields[f])) <==> (f in other && IsTruthy(other[f])))
    ensures HasStrongSignal(g, tool, Object(fields)) <==> HasStrongSignal(g, tool, Object(other))
  {
  }

  datatype Nudge = StrongSignal | CutOff(hit: Threshold) | AllToolsCalled

  datatype Line = ToolCalled(turn: nat, tool: string) | Result(seen: Observation) | Told(nudge: Nudge) | Unreadable(turn: nat)

  function NudgeFor(g: Guidance, tools: set<string>, called: set<string>, tool: string, seen: Observation): seq<Line> {
    if HasStrongSignal(g, tool, seen) then [Told(StrongSignal)]
    else match HitFrom(g.thresholds, seen, 0)
         case Some(t) => [Told(CutOff(t))]
         case None => if called == tools then [Told(AllToolsCalled)] else []
  }

  // --- one attempt with one provider ---

  datatype Reply =
    | Failed(detail: string)
    | Diagnose(diagnosis: string)
    | CallTool(tool: Option<string>)
    | Unparseable

  /** Why a provider was given up: what its call reported, or two replies that could not be read. */
  datatype Failure = CallFailed(detail: string) | TwiceUnparseable

  /** Everything the loop is given: which tools exist, what models answer and what tools return, by call number. */
  datatype World = World(tools: set<string>, guidance: Guidance, replies: nat -> Reply, results: nat -> Observation)

  datatype Status = Diagnosed(diagnosis: string) | InvalidTool | MaxTurns | ProviderFailure(detail: Failure)

  predicate CallsKnownTool(w: World, c: nat) {
    w.replies(c).CallTool? && w.replies(c).tool.Some? && w.replies(c).tool.value in w.tools
  }

  /** Unparseable replies among the n calls from at. */
  function Unparsed(w: World, at: nat, n: nat): nat {
    if n == 0 then 0 else Unparsed(w, at, n - 1) + (if w.replies(at + n - 1) == Unparseable then 1 else 0)
  }

  lemma {:induction false} UnparsedGrows(w: World, at: nat, m: nat, n: nat)
    requires m <= n
    ensures Unparsed(w, at, m) <= Unparsed(w, at, n)
  {
    if m < n {
      UnparsedGrows(w, at, m, n - 1);
    }
  }

  /** None of the n replies from at ends the attempt. */
  ghost predicate GoesOn(w: World, at: nat, n: nat) {
    && (forall c :: at <= c < at + n ==> CallsKnownTool(w, c) || w.replies(c) == Unparseable)
    && Unparsed(w, at, n) < MAX_UNPARSEABLE
  }

  /** How the attempt that started at call at ends if its n-th reply is its last. */
  function StatusAt(w: World, at: nat, n: nat): Status
    requires n > 0
  {
    match w.replies(at + n - 1)
    case Failed(detail) => ProviderFailure(CallFailed(detail))
    case Diagnose(d) => Diagnosed(d)
    case CallTool(_) => if CallsKnownTool(w, at + n - 1) then MaxTurns else InvalidTool
    case Unparseable => if Unparsed(w, at, n) >= MAX_UNPARSEABLE then ProviderFailure(TwiceUnparseable) else MaxTurns
  }

  /** The last value each tool returned in the n turns from call at. */
  function Observed(w: World, at: nat, n: nat): map<string, Observation> {
    if n == 0 then map[]
    else
      var before := Observed(w, at, n - 1);
      if CallsKnownTool(w, at + n - 1) then before[w.replies(at + n - 1).tool.value := w.results(at + n - 1)] else before
  }

  /** What turn n adds to the transcript when it does not end the attempt. */
  function LinesOf(w: World, at: nat, n: nat): seq<Line>
    requires n > 0
  {
    var c := at + n - 1;
    if CallsKnownTool(w, c) then
      var tool := w.replies(c).tool.value;
      [ToolCalled(n, tool), Result(w.results(c))] + NudgeFor(w.guidance, w.tools, Observed(w, at, n).Keys, tool, w.results(c))
    else [Unreadable(n)]
  }

  function Transcript(w: World, at: nat, n: nat): seq<Line> {
    if n == 0 then [] else Transcript(w, at, n - 1) + LinesOf(w, at, n)
  }

  /** The attempt that starts at call at takes n turns: the first one that ends it, or the fifth. */
  ghost predicate Takes(w: World, at: nat, n: nat) {
    1 <= n <= MAX_TURNS && GoesOn(w, at, n - 1) && (n < MAX_TURNS ==> !GoesOn(w, at, n))
  }

  datatype Attempt = Attempt(status: Status, turns: nat, transcript: seq<Line>, observations: map<string, Observation>)

  /** The attempt is what its own replies make it: none of the others is mentioned. */
  ghost predicate IsAttempt(a: Attempt, w: World, at: nat) {
    && Takes(w, at, a.turns)
    && a.status == StatusAt(w, at, a.turns)
    && a.transcript == Transcript(w, at, if a.status.MaxTurns? then MAX_TURNS else a.turns - 1)
    && a.observations == Observed(w, at, if a.status.MaxTurns? then MAX_TURNS else a.turns - 1)
  }

  /** The outcome of the calls before call end says what the last of them was answered, word for word. */
  ghost predicate Reports(w: World, end: nat, status: Status) {
    && end > 0
    && match w.replies(end - 1)
       case Diagnose(d) => status == Diagnosed(d)
       case Failed(x) => status == ProviderFailure(CallFailed(x))
       case Unparseable => status == ProviderFailure(TwiceUnparseable) || status == MaxTurns
       case CallTool(_) => status == InvalidTool || status == MaxTurns
  }

  lemma {:induction false} AttemptReports(a: Attempt, w: World, at: nat)
    requires IsAttempt(a, w, at)
    ensures Reports(w, at + a.turns, a.status)
  {
  }

  /** What the loop has built up before its n-th turn. */
  ghost predicate SoFar(w: World, at: nat, n: nat, transcript: seq<Line>, observations: map<string, Observation>,
      unparsed: nat) {
    && GoesOn(w, at, n)
    && transcript == Transcript(w, at, n) && observations == Observed(w, at, n) && unparsed == Unparsed(w, at, n)
  }

  /** How a reply ends the attempt after so many unparseable ones, if it does. */
  function EndOf(reply: Reply, tools: set<string>, unparsed: nat): Option<Status> {
    match reply
    case Failed(detail) => Some(ProviderFailure(CallFailed(detail)))
    case Diagnose(d) => Some(Diagnosed(d))
    case CallTool(tool) => if tool.None? || tool.value !in tools then Some(InvalidTool) else None
    case Unparseable => if unparsed + 1 >= MAX_UNPARSEABLE then Some(ProviderFailure(TwiceUnparseable)) else None
  }

  lemma {:induction false} LastTurn(w: World, at: nat, n: nat, transcript: seq<Line>,
      observations: map<string, Observation>, unparsed: nat)
    requires n < MAX_TURNS && SoFar(w, at, n, transcript, observations, unparsed)
    requires EndOf(w.replies(at + n), w.tools, unparsed).Some?
    ensures IsAttempt(Attempt(EndOf(w.replies(at + n), w.tools, unparsed).value, n + 1, transcript, observations), w, at)
  {
    assert !GoesOn(w, at, n + 1);
  }

  lemma {:induction false} ToolTurn(w: World, at: nat, n: nat, transcript: seq<Line>,
      observations: map<string, Observation>, unparsed: nat)
    requires SoFar(w, at, n, transcript, observations, unparsed) && CallsKnownTool(w, at + n)
    ensures var tool := w.replies(at + n).tool.value;
            var seen := w.results(at + n);
            var now := observations[tool := seen];
            SoFar(w, at, n + 1,
                  transcript + ([ToolCalled(n + 1, tool), Result(seen)] + NudgeFor(w.guidance, w.tools, now.Keys, tool, seen)), now, unparsed)
  {
  }

  lemma {:induction false} UnreadableTurn(w: World, at: nat, n: nat, transcript: seq<Line>,
      observations: map<string, Observation>, unparsed: nat)
    requires SoFar(w, at, n, transcript, observations, unparsed)
    requires w.replies(at + n) == Unparseable && unparsed + 1 < MAX_UNPARSEABLE
    ensures SoFar(w, at, n + 1, transcript + [Unreadable(n + 1)], observations, unparsed + 1)
  {
  }

  lemma {:induction false} AllTurns(w: World, at: nat, transcript: seq<Line>, observations: map<string, Observation>,
      unparsed: nat)
    requires SoFar(w, at, MAX_TURNS, transcript, observations, unparsed)
    ensures IsAttempt(Attempt(MaxTurns, MAX_TURNS, transcript, observations), w, at)
  {
    var last := at + MAX_TURNS - 1;
    assert CallsKnownTool(w, last) || w.replies(last) == Unparseable;
    UnparsedGrows(w, at, MAX_TURNS - 1, MAX_TURNS);
  }

  /** One turn: either the attempt it ends, or the loop variables for the next one. */
  method TakeTurn(w: World, at: nat, turn: nat, transcript: seq<Line>, observations: map<string, Observation>,
      unparsed: nat)
    returns (ended: Option<Attempt>, transcript': seq<Line>, observations': map<string, Observation>, unparsed': nat)
    requires 1 <= turn <= MAX_TURNS && SoFar(w, at, turn - 1, transcript, observations, unparsed)
    ensures ended.Some? ==> IsAttempt(ended.value, w, at)
    ensures ended.None? ==> SoFar(w, at, turn, transcript', observations', unparsed')
  {
    var reply := w.replies(at + turn - 1);
    ended, transcript', observations', unparsed' := None, transcript, observations, unparsed;
    var status := EndOf(reply, w.tools, unparsed);
    if status.Some? {
      LastTurn(w, at, turn - 1, transcript, observations, unparsed);
      ended := Some(Attempt(status.value, turn, transcript, observations));
    } else if reply.CallTool? {
      transcript', observations' := TakeToolTurn(w, at, turn, reply.tool.value, transcript, observations, unparsed);
    } else {
      UnreadableTurn(w, at, turn - 1, transcript, observations, unparsed);
      unparsed', transcript' := unparsed + 1, transcript + [Unreadable(turn)];
    }
  }

  /** A turn that calls a tool: the result is observed, and the transcript says so and what the model is told about it. */
  method TakeToolTurn(w: World, at: nat, turn: nat, tool: string, transcript: seq<Line>,
      observations: map<string, Observation>, ghost unparsed: nat)
    returns (transcript': seq<Line>, observations': map<string, Observation>)
    requires turn >= 1 && SoFar(w, at, turn - 1, transcript, observations, unparsed)
    requires w.replies(at + turn - 1) == CallTool(Some(tool)) && tool in w.tools
    ensures SoFar(w, at, turn, transcript', observations', unparsed)
  {
    var seen := w.results(at + turn - 1);
    ToolTurn(w, at, turn - 1, transcript, observations, unparsed);
    observations' := observations[tool := seen];
    var nudge := ChooseNudge(w, observations'.Keys, tool, seen);
    transcript' := transcript + ([ToolCalled(turn, tool), Result(seen)] + nudge);
  }

  method RunAttempt(w: World, at: nat) returns (a: Attempt)
    ensures IsAttempt(a, w, at) && Reports(w, at + a.turns, a.status)
  {
    var transcript: seq<Line>, observations: map<string, Observation>, unparsed := [], map[], 0;
    for turn := 1 to MAX_TURNS + 1
      invariant SoFar(w, at, turn - 1, transcript, observations, unparsed)
    {
      var ended: Option<Attempt>;
      ended, transcript, observations, unparsed := TakeTurn(w, at, turn, transcript, observations, unparsed);
      if ended.Some? {
        AttemptReports(ended.value, w, at);
        return ended.value;
      }
    }
    AllTurns(w, at, transcript, observations, unparsed);
    AttemptReports(Attempt(MaxTurns, MAX_TURNS, transcript, observations), w, at);
    return Attempt(MaxTurns, MAX_TURNS, transcript, observations);
  }

  method ChooseNudge(w: World, called: set<string>, tool: string, seen: Observation) returns (lines: seq<Line>)
    ensures lines == NudgeFor(w.guidance, w.tools, called, tool, seen)
  {
    var hit := NumericThresholdHit(w.guidance.thresholds, seen);
    if HasStrongSignal(w.guidance, tool, seen) {
      return [Told(StrongSignal)];
    } else if hit.Some? {
      return [Told(CutOff(hit.value))];
    } else if called == w.tools {
      return [Told(AllToolsCalled)];
    }
    return [];
  }

  // --- the chain ---

  datatype Diagnosis =
    | Answered(provider: nat, attempt: Attempt, failed: seq<Failure>)
    | Unavailable(failed: seq<Failure>)

  /** The attempt that starts at call at ends before call end, with this failure of the provider. */
  ghost predicate FailedFrom(w: World, at: nat, end: nat, detail: Failure) {
    at < end && Takes(w, at, end - at) && StatusAt(w, at, end - at) == ProviderFailure(detail)
  }

  /** The first |failed| providers failed one after the other, provider i from call starts[i] on. */
  ghost predicate FailedInOrder(w: World, starts: seq<nat>, failed: seq<Failure>) {
    && |starts| == |failed| + 1 && starts[0] == 0
    && forall i :: 0 <= i < |failed| ==> FailedFrom(w, starts[i], starts[i + 1], failed[i])
  }

  lemma {:induction false} OneFailureMore(w: World, starts: seq<nat>, failed: seq<Failure>, a: Attempt)
    requires FailedInOrder(w, starts, failed) && IsAttempt(a, w, starts[|failed|]) && a.status.ProviderFailure?
    ensures FailedInOrder(w, starts + [starts[|failed|] + a.turns], failed + [a.status.detail])
  {
    var longer := starts + [starts[|failed|] + a.turns];
    var more := failed + [a.status.detail];
    forall i | 0 <= i < |more|
      ensures FailedFrom(w, longer[i], longer[i + 1], more[i])
    {
      if i < |failed| {
        assert FailedFrom(w, starts[i], starts[i + 1], failed[i]);
      } else {
        assert longer[i + 1] - longer[i] == a.turns;
      }
    }
  }

  /** The failures that are reported are what each provider's last reply said. */
  lemma {:induction false} FailuresAreReported(w: World, starts: seq<nat>, failed: seq<Failure>)
    requires FailedInOrder(w, starts, failed)
    ensures forall i :: 0 <= i < |failed| ==> Reports(w, starts[i + 1], ProviderFailure(failed[i]))
  {
    forall i | 0 <= i < |failed|
      ensures Reports(w, starts[i + 1], ProviderFailure(failed[i]))
    {
      assert FailedFrom(w, starts[i], starts[i + 1], failed[i]);
    }
  }

  /**
   The failures reported are those of the providers before the answering one, in order, and the
   answer is that provider's own attempt.
   */
  method RunDiagnosis(w: World, providers: nat) returns (d: Diagnosis, calls: nat, ghost starts: seq<nat>)
    ensures FailedInOrder(w, starts, d.failed) && |d.failed| <= providers
    ensures d.Unavailable? ==> |d.failed| == providers && calls == starts[|d.failed|]
    ensures d.Answered? ==>
              && d.provider == |d.failed| < providers
              && !d.attempt.status.ProviderFailure?
              && IsAttempt(d.attempt, w, starts[|d.failed|])
              && calls == starts[|d.failed|] + d.attempt.turns
    ensures calls <= 5 * providers
    ensures d.Answered? ==> Reports(w, calls, d.attempt.status)
    ensures forall i :: 0 <= i < |d.failed| ==> Reports(w, starts[i + 1], ProviderFailure(d.failed[i]))
  {
    var failed: seq<Failure> := [];
    calls := 0;
    starts := [0];
    for i := 0 to providers
      invariant |failed| == i && FailedInOrder(w, starts, failed)
      invariant calls == starts[i] <= MAX_TURNS * i
    {
      var a := RunAttempt(w, calls);
      calls := calls + a.turns;
      if !a.status.ProviderFailure? {
        FailuresAreReported(w, starts, failed);
        return Answered(i, a, failed), calls, starts;
      }
      OneFailureMore(w, starts, failed, a);
      failed := failed + [a.status.detail];
      starts := starts + [calls];
    }
    FailuresAreReported(w, starts, failed);
    return Unavailable(failed), calls, starts;
  }

  // --- what that says ---

  /** The replies alone fix how many turns an attempt takes. */
  lemma {:induction false} OneLength(w: World, at: nat, m: nat, n: nat)
    requires Takes(w, at, m) && Takes(w, at, n)
    ensures m == n
  {
    if m < n {
      UnparsedGrows(w, at, m, n - 1);
      assert GoesOn(w, at, m);
    } else if n < m {
      UnparsedGrows(w, at, n, m - 1);
      assert GoesOn(w, at, n);
    }
  }

  lemma {:induction false} OneFailure(w: World, at: nat, end: nat, detail: Failure, otherEnd: nat, otherDetail: Failure)
    requires FailedFrom(w, at, end, detail) && FailedFrom(w, at, otherEnd, otherDetail)
    ensures end == otherEnd && detail == otherDetail
  {
    OneLength(w, at, end - at, otherEnd - at);
  }

  /** And so which providers fail, when and why. */
  lemma {:induction false} OneFailureList(w: World, starts: seq<nat>, failed: seq<Failure>, otherStarts: seq<nat>,
      other: seq<Failure>, n: nat)
    requires FailedInOrder(w, starts, failed) && FailedInOrder(w, otherStarts, other)
    requires n <= |failed| && n <= |other|
    ensures starts[n] == otherStarts[n] && (n > 0 ==> failed[n - 1] == other[n - 1])
  {
    if n > 0 {
      OneFailureList(w, starts, failed, otherStarts, other, n - 1);
      OneFailure(w, starts[n - 1], starts[n], failed[n - 1], otherStarts[n], other[n - 1]);
    }
  }

  /** Whether a reply of a kind hands over: only a failed call or the second unparseable reply does. */
  lemma {:induction false} OnlyProvidersFailOver(w: World, at: nat, n: nat)
    requires Takes(w, at, n)
    ensures StatusAt(w, at, n).ProviderFailure?
       <==> w.replies(at + n - 1).Failed? || (w.replies(at + n - 1) == Unparseable && Unparsed(w, at, n - 1) == 1)
    ensures StatusAt(w, at, n).InvalidTool?
       <==> w.replies(at + n - 1).CallTool? && !CallsKnownTool(w, at + n - 1)
    ensures StatusAt(w, at, n).MaxTurns? <==> n == MAX_TURNS && GoesOn(w, at, MAX_TURNS)
  {
    if GoesOn(w, at, n) {
      assert CallsKnownTool(w, at + n - 1) || w.replies(at + n - 1) == Unparseable;
    } else {
      assert (CallsKnownTool(w, at + n - 1) || w.replies(at + n - 1) == Unparseable) ==> Unparsed(w, at, n) >= MAX_UNPARSEABLE;
    }
  }

  /** Two runs whose replies and results agree from call at on for n calls. */
  ghost predicate SameTurns(w: World, other: World, at: nat, n: nat) {
    && w.tools == other.tools && w.guidance == other.guidance
    && forall c :: at <= c < at + n ==> w.replies(c) == other.replies(c) && w.results(c) == other.results(c)
  }

  /** A transcript and its observations depend on the provider's own turns and on nothing that came before or after. */
  lemma {:induction false} NoCarryOver(w: World, other: World, at: nat, n: nat)
    requires SameTurns(w, other, at, n)
    ensures Transcript(w, at, n) == Transcript(other, at, n) && Observed(w, at, n) == Observed(other, at, n)
  {
    if n > 0 {
      NoCarryOver(w, other, at, n - 1);
    }
  }

  /** Call c is a call of this tool. */
  predicate Calls(w: World, c: nat, tool: string) {
    CallsKnownTool(w, c) && w.replies(c).tool.value == tool
  }

  /** The last of the n calls from at that calls the tool. */
  function LastCall(w: World, at: nat, n: nat, tool: string): (c: Option<nat>)
    ensures c.None? ==> forall k :: at <= k < at + n ==> !Calls(w, k, tool)
    ensures c.Some? ==> at <= c.value < at + n && Calls(w, c.value, tool)
                        && forall k :: c.value < k < at + n ==> !Calls(w, k, tool)
  {
    if n == 0 then None
    else if Calls(w, at + n - 1, tool) then Some(at + n - 1)
    else LastCall(w, at, n - 1, tool)
  }

  /** A tool is among the observations exactly when it was called, with the result of its last call. */
  lemma {:induction false} ObservationsAreLastResults(w: World, at: nat, n: nat, tool: string)
    ensures var c := LastCall(w, at, n, tool);
            var seen := Observed(w, at, n);
            if c.None? then tool !in seen else tool in seen && seen[tool] == w.results(c.value)
  {
    if n > 0 {
      ObservationsAreLastResults(w, at, n - 1, tool);
    }
  }

  // --- what the model is told, read off the transcript alone ---

  predicate Mentions(lines: seq<Line>, tool: string) {
    exists i :: 0 <= i < |lines| && lines[i].ToolCalled? && lines[i].tool == tool
  }

  /** The nudge due after a result: strong evidence first, then a reached cut-off, then that every tool has been called. */
  function Due(w: World, soFar: seq<Line>, tool: string, seen: Observation): Option<Nudge> {
    if HasStrongSignal(w.guidance, tool, seen) then Some(StrongSignal)
    else match HitFrom(w.guidance.thresholds, seen, 0)
         case Some(t) => Some(CutOff(t))
         case None => if forall t :: t in w.tools ==> Mentions(soFar, t) then Some(AllToolsCalled) else None
  }

  /**
   Line j of the transcript is not a nudge out of place, and if it is a result it follows its call
   and has its nudge after it.
   */
  ghost predicate LineFits(w: World, lines: seq<Line>, j: nat)
    requires j < |lines|
  {
    && (lines[j].Told? ==> j > 0 && lines[j - 1].Result?)
    && (lines[j].Result? ==>
          && j > 0 && lines[j - 1].ToolCalled?
          && match Due(w, lines[..j + 1], lines[j - 1].tool, lines[j].seen)
             case Some(nudge) => j + 1 < |lines| && lines[j + 1] == Told(nudge)
             case None => j + 1 < |lines| ==> !lines[j + 1].Told?)
  }

  ghost predicate WellNudged(w: World, lines: seq<Line>) {
    forall j :: 0 <= j < |lines| ==> LineFits(w, lines, j)
  }

  lemma {:induction false} MentionsOfJoin(a: seq<Line>, b: seq<Line>, tool: string)
    ensures Mentions(a + b, tool) <==> Mentions(a, tool) || Mentions(b, tool)
  {
    if i :| 0 <= i < |a| && a[i].ToolCalled? && a[i].tool == tool {
      assert (a + b)[i] == a[i];
    }
    if i :| 0 <= i < |b| && b[i].ToolCalled? && b[i].tool == tool {
      assert (a + b)[|a| + i] == b[i];
    }
  }

  /** The two lines of a tool call, without the nudge. */
  function CallLines(n: nat, tool: string, seen: Observation): seq<Line> {
    [ToolCalled(n, tool), Result(seen)]
  }

  lemma {:induction false} TurnMentions(w: World, at: nat, n: nat, tool: string)
    requires n > 0
    ensures Mentions(LinesOf(w, at, n), tool) <==> Calls(w, at + n - 1, tool)
    ensures CallsKnownTool(w, at + n - 1) ==>
              (Mentions(CallLines(n, w.replies(at + n - 1).tool.value, w.results(at + n - 1)), tool) <==> Calls(w, at + n - 1, tool))
  {
    if CallsKnownTool(w, at + n - 1) {
      var lines := LinesOf(w, at, n);
      assert lines[0] == ToolCalled(n, w.replies(at + n - 1).tool.value);
      assert CallLines(n, lines[0].tool, w.results(at + n - 1))[0] == lines[0];
    }
  }

  /** The transcript mentions exactly the tools observed, and all of them exist. */
  lemma {:induction false} MentionedIsObserved(w: World, at: nat, n: nat, tool: string)
    ensures Mentions(Transcript(w, at, n), tool) <==> tool in Observed(w, at, n)
    ensures tool in Observed(w, at, n) ==> tool in w.tools
  {
    if n > 0 {
      MentionedIsObserved(w, at, n - 1, tool);
      TurnMentions(w, at, n, tool);
      MentionsOfJoin(Transcript(w, at, n - 1), LinesOf(w, at, n), tool);
    }
  }

  lemma {:induction false} MentionedAfterCall(w: World, at: nat, n: nat, tool: string)
    requires n > 0 && CallsKnownTool(w, at + n - 1)
    ensures var call := CallLines(n, w.replies(at + n - 1).tool.value, w.results(at + n - 1));
            Mentions(Transcript(w, at, n - 1) + call, tool) <==> tool in Observed(w, at, n)
    ensures tool in Observed(w, at, n) ==> tool in w.tools
  {
    MentionedIsObserved(w, at, n - 1, tool);
    MentionedIsObserved(w, at, n, tool);
    TurnMentions(w, at, n, tool);
    MentionsOfJoin(Transcript(w, at, n - 1), CallLines(n, w.replies(at + n - 1).tool.value, w.results(at + n - 1)), tool);
  }

  lemma {:induction false} AllMentioned(tools: set<string>, observed: map<string, Observation>, lines: seq<Line>)
    requires forall t :: Mentions(lines, t) <==> t in observed
    requires forall t :: t in observed ==> t in tools
    ensures observed.Keys == tools <==> forall t :: t in tools ==> Mentions(lines, t)
  {
    if forall t :: t in tools ==> Mentions(lines, t) {
      assert forall t :: t in tools <==> t in observed.Keys;
    }
  }

  /** What is due after the call of turn n is what the loop adds. */
  lemma {:induction false} DueIsAdded(w: World, at: nat, n: nat)
    requires n > 0 && CallsKnownTool(w, at + n - 1)
    ensures var tool, seen := w.replies(at + n - 1).tool.value, w.results(at + n - 1);
            NudgeFor(w.guidance, w.tools, Observed(w, at, n).Keys, tool, seen)
            == match Due(w, Transcript(w, at, n - 1) + CallLines(n, tool, seen), tool, seen)
               case Some(nudge) => [Told(nudge)]
               case None => []
  {
    var tool, seen := w.replies(at + n - 1).tool.value, w.results(at + n - 1);
    var lines := Transcript(w, at, n - 1) + CallLines(n, tool, seen);
    forall t
      ensures (Mentions(lines, t) <==> t in Observed(w, at, n)) && (t in Observed(w, at, n) ==> t in w.tools)
    {
      MentionedAfterCall(w, at, n, t);
    }
    AllMentioned(w.tools, Observed(w, at, n), lines);
  }

  lemma {:induction false} EarlierLinesStillFit(w: World, lines: seq<Line>, more: seq<Line>, j: nat)
    requires WellNudged(w, lines) && more != [] && !more[0].Told? && j < |lines|
    ensures LineFits(w, lines + more, j)
  {
    assert LineFits(w, lines, j);
    assert (lines + more)[..j + 1] == lines[..j + 1];
  }

  lemma {:induction false} CallFits(w: World, lines: seq<Line>, n: nat, tool: string, seen: Observation, told: seq<Line>)
    requires WellNudged(w, lines)
    requires told == match Due(w, lines + CallLines(n, tool, seen), tool, seen)
                     case Some(nudge) => [Told(nudge)]
                     case None => []
    ensures WellNudged(w, lines + (CallLines(n, tool, seen) + told))
  {
    var more := CallLines(n, tool, seen) + told;
    var longer := lines + more;
    forall j | 0 <= j < |longer|
      ensures LineFits(w, longer, j)
    {
      if j < |lines| {
        EarlierLinesStillFit(w, lines, more, j);
      } else if j == |lines| + 1 {
        assert longer[..j + 1] == lines + CallLines(n, tool, seen);
      }
    }
  }

  /**
   In every transcript a nudge stands only right after a result, and after each result stands
   exactly the nudge that is due: so the model is told that it has every answer only, and
   always, when the lines before mention every tool and no evidence settles the case.
   */
  lemma {:induction false} TranscriptIsWellNudged(w: World, at: nat, n: nat)
    ensures WellNudged(w, Transcript(w, at, n))
  {
    if n > 0 {
      TranscriptIsWellNudged(w, at, n - 1);
      var lines, c := Transcript(w, at, n - 1), at + n - 1;
      if CallsKnownTool(w, c) {
        DueIsAdded(w, at, n);
        CallFits(w, lines, n, w.replies(c).tool.value, w.results(c), LinesOf(w, at, n)[2..]);
        assert LinesOf(w, at, n) == CallLines(n, w.replies(c).tool.value, w.results(c)) + LinesOf(w, at, n)[2..];
      } else {
        UnreadableFits(w, lines, n);
      }
    }
  }

  lemma {:induction false} UnreadableFits(w: World, lines: seq<Line>, n: nat)
    requires WellNudged(w, lines)
    ensures WellNudged(w, lines + [Unreadable(n)])
  {
    forall j | 0 <= j < |lines|
      ensures LineFits(w, lines + [Unreadable(n)], j)
    {
      EarlierLinesStillFit(w, lines, [Unreadable(n)], j);
    }
  }

  lemma {:induction false} TranscriptGrows(w: World, at: nat, m: nat, n: nat)
    requires m <= n
    ensures Transcript(w, at, m) <= Transcript(w, at, n)
  {
    if m < n {
      TranscriptGrows(w, at, m, n - 1);
    }
  }

  /**
   Turn k is written where the transcript of the turns before it ends: the tool that was called and
   what it returned, or that the reply could not be read.
   */
  lemma {:induction false} EachTurnIsWritten(w: World, at: nat, k: nat, n: nat)
    requires 1 <= k <= n
    ensures var lines, j, c := Transcript(w, at, n), |Transcript(w, at, k - 1)|, at + k - 1;
            if CallsKnownTool(w, c)
            then j + 1 < |lines| && lines[j] == ToolCalled(k, w.replies(c).tool.value) && lines[j + 1] == Result(w.results(c))
            else j < |lines| && lines[j] == Unreadable(k)
  {
    TranscriptGrows(w, at, k, n);
    var j := |Transcript(w, at, k - 1)|;
    assert Transcript(w, at, k) == Transcript(w, at, k - 1) + LinesOf(w, at, k);
    assert Transcript(w, at, k)[j] == LinesOf(w, at, k)[0];
    if CallsKnownTool(w, at + k - 1) {
      assert Transcript(w, at, k)[j + 1] == LinesOf(w, at, k)[1];
    }
  }
}
