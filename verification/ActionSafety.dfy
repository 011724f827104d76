/**
 Tool calls and the two judgements on them: the validator in front of the cage
 (tool_call_validator.py) and the safety check for the three actions that carry a
 magnitude (constraint_checks.py).
 */
module ActionSafety {
  import opened Options
  import opened Quantities

  datatype Tool =
    | RestartDeployment | PatchMemoryLimit | PatchCpuLimit | ScaleDeployment
    | RollbackDeployment | RestoreFromDiskFull | OtherTool(name: string)

  datatype Field = Name | Namespace | Container | Limit | Replicas | OtherField(name: string)

  /** A JSON value; Other stands for floats, lists and objects. */
  datatype Value = Text(text: string) | Number(n: int) | Boolean(b: bool) | Null | Other

  type Params = map<Field, Value>

  const MAX_MEMORY_LIMIT_MI := 2048.0
  const MAX_CPU_LIMIT_M := 2000.0
  const MAX_REPLICAS := 20
  const OOM_BASELINE_MI := 200.0
  const VALIDATED_SAFE_REPLICAS := 3
  const DEFAULT_NAMESPACE := "sock-shop"

  const MAGNITUDE_SENSITIVE := { PatchMemoryLimit, PatchCpuLimit, ScaleDeployment }

  function Get(params: Params, field: Field): Value {
    if field in params then params[field] else Null
  }

  function MiOf(value: Value): Option<real> {
    if value.Text? then ToMi(value.text) else None
  }

  function MillicoresOf(value: Value): Option<real> {
    if value.Text? then ToMillicores(value.text) else None
  }

  // --- the validator ---

  predicate IsBlank(c: char) {
    c == ' ' || '\t' <= c <= '\r' || 28 <= c as int <= 31
  }

  predicate IsNonEmptyText(value: Value) {
    value.Text? && exists i :: 0 <= i < |value.text| && !IsBlank(value.text[i])
  }

  predicate IsValidMemory(value: Value) {
    MiOf(value).Some? && 0.0 < MiOf(value).value <= MAX_MEMORY_LIMIT_MI
  }

  predicate IsValidCpu(value: Value) {
    MillicoresOf(value).Some? && 0.0 < MillicoresOf(value).value <= MAX_CPU_LIMIT_M
  }

  predicate IsValidReplicas(value: Value) {
    value.Number? && 0 <= value.n <= MAX_REPLICAS
  }

  function Schema(tool: Tool): set<Field> {
    match tool
    case PatchMemoryLimit => {Name, Container, Limit}
    case PatchCpuLimit => {Name, Container, Limit}
    case ScaleDeployment => {Name, Replicas}
    case _ => {Name}
  }

  predicate IsValidField(tool: Tool, field: Field, value: Value) {
    match field
    case Limit => if tool.PatchMemoryLimit? then IsValidMemory(value) else IsValidCpu(value)
    case Replicas => IsValidReplicas(value)
    case _ => IsNonEmptyText(value)
  }

  datatype Rejection = UnknownTool | NotAnObject | WrongNamespace | BadParam | UnexpectedParam | ToolMismatch

  /** The first reason to refuse the call; params is None when they are not an object at all. */
  function Validate(tool: Tool, params: Option<Params>): Option<Rejection> {
    if tool.OtherTool? then Some(UnknownTool)
    else if params.None? then Some(NotAnObject)
    else
      var given := params.value;
      if Get(given, Namespace) != Null && Get(given, Namespace) != Text(DEFAULT_NAMESPACE) then Some(WrongNamespace)
      else if exists field :: field in Schema(tool) && !(field in given && IsValidField(tool, field, given[field])) then Some(BadParam)
      else if exists field :: field in given && field !in Schema(tool) && field != Namespace then Some(UnexpectedParam)
      else None
  }

  // --- the safety check ---

  /** What an episode has measured, and what can be read live, when an action is judged. */
  datatype Readings = Readings(peak: Option<real>, replicas: Option<int>, configured: set<string>, liveCpu: map<string, real>)

  datatype Verdict = Safe | NoReading | NoConfig | BadQuantity | OutOfRange

  function Max(a: real, b: real): real {
    if a >= b then a else b
  }

  function CheckSafe(tool: Tool, params: Params, actual: string, r: Readings): Verdict {
    match tool
    case PatchMemoryLimit =>
      (match r.peak
       case None => NoReading
       case Some(peak) =>
         match MiOf(Get(params, Limit))
         case None => BadQuantity
         case Some(mi) => if Max(peak, OOM_BASELINE_MI) < mi <= MAX_MEMORY_LIMIT_MI then Safe else OutOfRange)
    case PatchCpuLimit =>
      if actual !in r.configured then NoConfig
      else if actual !in r.liveCpu then NoReading
      else (match MillicoresOf(Get(params, Limit))
            case None => BadQuantity
            case Some(m) => if r.liveCpu[actual] < m <= MAX_CPU_LIMIT_M then Safe else OutOfRange)
    case ScaleDeployment =>
      if actual !in r.configured then NoConfig
      else (match r.replicas
            case None => NoReading
            case Some(current) =>
              var proposed := Get(params, Replicas);
              if !proposed.Number? then BadQuantity
              else
                var floor := if current >= VALIDATED_SAFE_REPLICAS - 1 then current else VALIDATED_SAFE_REPLICAS - 1;
                if floor < proposed.n <= MAX_REPLICAS then Safe else OutOfRange)
    case _ => Safe
  }

  /**
   A magnitude is safe exactly when everything needed to judge it is known and it clears
   every bound the fault has already broken without passing the cap.
   */
  lemma {:induction false} SafeExactlyWithinBounds(tool: Tool, params: Params, actual: string, r: Readings)
    ensures tool == PatchMemoryLimit ==>
              (CheckSafe(tool, params, actual, r) == Safe
               <==> var mi := MiOf(Get(params, Limit));
                    && mi.Some? && r.peak.Some?
                    && r.peak.value < mi.value && 200.0 < mi.value && mi.value <= 2048.0)
    ensures tool == PatchCpuLimit ==>
              (CheckSafe(tool, params, actual, r) == Safe
               <==> var m := MillicoresOf(Get(params, Limit));
                    && m.Some? && actual in r.configured && actual in r.liveCpu
                    && r.liveCpu[actual] < m.value <= 2000.0)
    ensures tool == ScaleDeployment ==>
              (CheckSafe(tool, params, actual, r) == Safe
               <==> var n := Get(params, Replicas);
                    && n.Number? && actual in r.configured && r.replicas.Some?
                    && r.replicas.value < n.n && 3 <= n.n <= 20)
    ensures tool !in MAGNITUDE_SENSITIVE ==> CheckSafe(tool, params, actual, r) == Safe
  {
  }

  /**
   The validator accepts exactly the calls that give every parameter of a known tool a value it
   allows, and nothing else but the namespace.
   */
  lemma {:induction false} ValidatesExactly(tool: Tool, params: Option<Params>)
    ensures Validate(tool, params) == None
       <==> && !tool.OtherTool? && params.Some?
            && params.value.Keys - {Namespace} == Schema(tool)
            && Get(params.value, Namespace) in {Null, Text(DEFAULT_NAMESPACE)}
            && forall field :: field in Schema(tool) ==> IsValidField(tool, field, Get(params.value, field))
  {
    if !tool.OtherTool? && params.Some? {
      var given := params.value;
      assert Namespace !in Schema(tool);
      if Validate(tool, params) == None {
        forall field | field in given.Keys - {Namespace}
          ensures field in Schema(tool)
        {
          assert field in given;
        }
      }
      if given.Keys - {Namespace} == Schema(tool) {
        forall field
          ensures field in Schema(tool) <==> field in given && field != Namespace
        {
          assert field in Schema(tool) <==> field in given.Keys - {Namespace};
        }
      }
    }
  }

  lemma {:induction false} SafeMagnitudeIsValid(tool: Tool, params: Params, actual: string, r: Readings)
    requires CheckSafe(tool, params, actual, r) == Safe
    requires forall cls :: cls in r.liveCpu ==> r.liveCpu[cls] >= 0.0
    ensures tool == PatchMemoryLimit || tool == PatchCpuLimit ==> IsValidField(tool, Limit, Get(params, Limit))
    ensures tool == ScaleDeployment ==> IsValidField(tool, Replicas, Get(params, Replicas))
  {
    SafeExactlyWithinBounds(tool, params, actual, r);
  }

  /** So a well-addressed tool call that passes the safety check passes the validator. */
  lemma {:induction false} SafeCallsValidate(tool: Tool, params: Params, actual: string, r: Readings)
    requires tool in MAGNITUDE_SENSITIVE && CheckSafe(tool, params, actual, r) == Safe
    requires forall cls :: cls in r.liveCpu ==> r.liveCpu[cls] >= 0.0
    requires params.Keys - {Namespace} == Schema(tool) && Get(params, Namespace) in {Null, Text(DEFAULT_NAMESPACE)}
    requires IsNonEmptyText(Get(params, Name)) && (tool != ScaleDeployment ==> IsNonEmptyText(Get(params, Container)))
    ensures Validate(tool, Some(params)) == None
  {
    SafeMagnitudeIsValid(tool, params, actual, r);
    forall field | field in Schema(tool)
      ensures IsValidField(tool, field, Get(params, field))
    {
      assert field == Name || field == Container || field == Limit || field == Replicas;
    }
    ValidatesExactly(tool, Some(params));
  }

  // --- what safety adds to validity ---

  /** The magnitude a valid call asks for: Mi, millicores or replicas. */
  function Magnitude(tool: Tool, params: Params): real {
    match tool
    case PatchMemoryLimit => MiOf(Get(params, Limit)).GetOr(0.0)
    case PatchCpuLimit => MillicoresOf(Get(params, Limit)).GetOr(0.0)
    case _ => if Get(params, Replicas).Number? then Get(params, Replicas).n as real else 0.0
  }

  /** The magnitudes known to be too small for a fault, or nothing when the reading they rest on is missing. */
  function TooSmall(tool: Tool, actual: string, r: Readings): Option<set<real>> {
    match tool
    case PatchMemoryLimit => if r.peak.None? then None else Some({r.peak.value, 200.0})
    case PatchCpuLimit =>
      if actual in r.configured && actual in r.liveCpu then Some({r.liveCpu[actual]}) else None
    case _ => if actual in r.configured && r.replicas.Some? then Some({r.replicas.value as real, 2.0}) else None
  }

  /**
   A call that the validator accepts is safe exactly when it exceeds everything known to be too
   small, and that is known.
   */
  lemma {:induction false} ValidCallsAreSafeAboveTheFault(tool: Tool, params: Params, actual: string, r: Readings)
    requires tool in MAGNITUDE_SENSITIVE && Validate(tool, Some(params)) == None
    ensures CheckSafe(tool, params, actual, r) == Safe
       <==> TooSmall(tool, actual, r).Some? && forall x :: x in TooSmall(tool, actual, r).value ==> x < Magnitude(tool, params)
  {
    ValidatesExactly(tool, Some(params));
    SafeExactlyWithinBounds(tool, params, actual, r);
    match tool
    case PatchMemoryLimit => assert Limit in Schema(tool);
    case PatchCpuLimit => assert Limit in Schema(tool);
    case ScaleDeployment => assert Replicas in Schema(tool);
  }

  /** Asking for more than a safe magnitude stays safe as long as the validator accepts it. */
  lemma {:induction false} MoreStaysSafe(tool: Tool, params: Params, more: Params, actual: string, r: Readings)
    requires tool in MAGNITUDE_SENSITIVE && Validate(tool, Some(params)) == None == Validate(tool, Some(more))
    requires CheckSafe(tool, params, actual, r) == Safe && Magnitude(tool, params) <= Magnitude(tool, more)
    ensures CheckSafe(tool, more, actual, r) == Safe
  {
    ValidCallsAreSafeAboveTheFault(tool, params, actual, r);
    ValidCallsAreSafeAboveTheFault(tool, more, actual, r);
  }

  // --- the fixes in production ---

  /** The tool for a class and the parameters it adds to name and namespace. */
  datatype Fix = Fix(tool: Tool, extra: Params)

  function FixParams(fix: Fix, target: string, ns: string): Params {
    map[Name := Text(target), Namespace := Text(ns)] + fix.extra
  }

  /** The parameters name this target and namespace, and beside them have exactly these extras. */
  predicate AimedAt(params: Params, target: string, ns: string, extra: Params) {
    && params.Keys == {Name, Namespace} + extra.Keys
    && params[Name] == Text(target) && params[Namespace] == Text(ns)
    && forall field :: field in extra ==> params[field] == extra[field]
  }

  /** The extras do not redirect the fix. */
  predicate KeepsAim(fix: Fix) {
    Name !in fix.extra && Namespace !in fix.extra
  }

  lemma {:induction false} FixIsAimed(fix: Fix, target: string, ns: string)
    requires KeepsAim(fix)
    ensures AimedAt(FixParams(fix, target, ns), target, ns, fix.extra)
  {
  }

  /** Disk-full is always restored to one replica. */
  const DISK_FULL_EXTRA: Params := map[Replicas := Number(1)]

  const OOM_FIX := Fix(PatchMemoryLimit, map[Container := Text("catalogue"), Limit := Text("400Mi")])
  const CPU_FIX := Fix(PatchCpuLimit, map[Container := Text("user"), Limit := Text("600m")])
  const SCALE_FIX := Fix(ScaleDeployment, map[Replicas := Number(3)])

  /** The fix of every class that has one. */
  const PRODUCTION: map<string, Fix> := map[
    "crash-loop" := Fix(RestartDeployment, map[]),
    "oom" := OOM_FIX,
    "disk-full" := Fix(RestoreFromDiskFull, DISK_FULL_EXTRA),
    "cpu-throttling" := CPU_FIX,
    "under-provisioned-replicas" := SCALE_FIX,
    "bad-rollout" := Fix(RollbackDeployment, map[])
  ]

  lemma {:induction false} LimitIsKept(fix: Fix, target: string, ns: string, field: Field)
    requires field in fix.extra
    ensures Get(FixParams(fix, target, ns), field) == fix.extra[field]
  {
  }

  /** The fix for an OOM kill would itself pass the check exactly when a peak below its own 400Mi was observed. */
  lemma {:induction false} OomFixPassesBelowItself(cls: string, target: string, ns: string, r: Readings)
    ensures CheckSafe(OOM_FIX.tool, FixParams(OOM_FIX, target, ns), cls, r) == Safe
       <==> r.peak.Some? && r.peak.value < 400.0
  {
    FixQuantities();
    LimitIsKept(OOM_FIX, target, ns, Limit);
    SafeExactlyWithinBounds(OOM_FIX.tool, FixParams(OOM_FIX, target, ns), cls, r);
  }

  /** The CPU fix would itself pass the check exactly while the live limit is known and below its own 600m. */
  lemma {:induction false} CpuFixPassesBelowItself(cls: string, target: string, ns: string, r: Readings)
    ensures CheckSafe(CPU_FIX.tool, FixParams(CPU_FIX, target, ns), cls, r) == Safe
       <==> cls in r.configured && cls in r.liveCpu && r.liveCpu[cls] < 600.0
  {
    FixQuantities();
    LimitIsKept(CPU_FIX, target, ns, Limit);
    SafeExactlyWithinBounds(CPU_FIX.tool, FixParams(CPU_FIX, target, ns), cls, r);
  }

  /** The scaling fix would itself pass the check exactly while the replica count is known and below its own three. */
  lemma {:induction false} ScaleFixPassesBelowItself(cls: string, target: string, ns: string, r: Readings)
    ensures CheckSafe(SCALE_FIX.tool, FixParams(SCALE_FIX, target, ns), cls, r) == Safe
       <==> cls in r.configured && r.replicas.Some? && r.replicas.value < 3
  {
    LimitIsKept(SCALE_FIX, target, ns, Replicas);
    SafeExactlyWithinBounds(SCALE_FIX.tool, FixParams(SCALE_FIX, target, ns), cls, r);
  }

  predicate IsProductionFix(fix: Fix) {
    || fix == OOM_FIX || fix == CPU_FIX || fix == SCALE_FIX
    || fix == Fix(RestartDeployment, map[]) || fix == Fix(RollbackDeployment, map[])
    || fix == Fix(RestoreFromDiskFull, DISK_FULL_EXTRA)
  }

  lemma {:induction false} ProductionFixes(cls: string)
    requires cls in PRODUCTION
    ensures IsProductionFix(PRODUCTION[cls])
  {
  }

  lemma {:induction false} FixIsWellFormed(fix: Fix, target: string, ns: string)
    requires KeepsAim(fix) && !fix.tool.OtherTool?
    requires forall field :: field in fix.extra && field in Schema(fix.tool) ==> IsValidField(fix.tool, field, fix.extra[field])
    ensures Validate(fix.tool, Some(FixParams(fix, target, ns))) == None
       <==> fix.extra.Keys == Schema(fix.tool) - {Name} && IsNonEmptyText(Text(target)) && ns == DEFAULT_NAMESPACE
  {
    var params := FixParams(fix, target, ns);
    FixIsAimed(fix, target, ns);
    ValidatesExactly(fix.tool, Some(params));
    assert Name in Schema(fix.tool) && Namespace !in Schema(fix.tool);
    assert params.Keys - {Namespace} == {Name} + fix.extra.Keys;
    if params.Keys - {Namespace} == Schema(fix.tool) {
      assert fix.extra.Keys == Schema(fix.tool) - {Name};
      forall field | field in Schema(fix.tool) && field != Name
        ensures IsValidField(fix.tool, field, Get(params, field))
      {
        assert field in fix.extra;
      }
    }
    if fix.extra.Keys == Schema(fix.tool) - {Name} {
      assert {Name} + fix.extra.Keys == Schema(fix.tool);
    }
  }

  /**
   Each extra is a valid value where the validator knows the field, and the name completes them if
   the fix is not for disk-full.
   */
  predicate FitsSchema(fix: Fix) {
    && KeepsAim(fix) && !fix.tool.OtherTool?
    && (forall field :: field in fix.extra && field in Schema(fix.tool) ==> IsValidField(fix.tool, field, fix.extra[field]))
    && (fix.extra.Keys == Schema(fix.tool) - {Name} <==> fix.tool != RestoreFromDiskFull)
  }

  lemma {:induction false} NamesFit(text: string)
    requires text != "" && !IsBlank(text[0])
    ensures IsNonEmptyText(Text(text))
  {
  }

  lemma {:induction false} LimitFixFits(tool: Tool, container: string, limit: string)
    requires tool == PatchMemoryLimit || tool == PatchCpuLimit
    requires container != "" && !IsBlank(container[0]) && IsValidField(tool, Limit, Text(limit))
    ensures FitsSchema(Fix(tool, map[Container := Text(container), Limit := Text(limit)]))
  {
    var fix := Fix(tool, map[Container := Text(container), Limit := Text(limit)]);
    NamesFit(container);
    assert fix.extra.Keys == {Container, Limit} == Schema(tool) - {Name};
  }

  lemma {:induction false} OtherFixFits(tool: Tool, extra: Params)
    requires ((tool == RestartDeployment || tool == RollbackDeployment) && extra == map[])
          || (tool == ScaleDeployment && extra == map[Replicas := Number(3)])
          || (tool == RestoreFromDiskFull && extra == DISK_FULL_EXTRA)
    ensures FitsSchema(Fix(tool, extra))
  {
    if tool == ScaleDeployment {
      assert extra.Keys == {Replicas} == Schema(tool) - {Name};
    } else if tool == RestoreFromDiskFull {
      assert Replicas in extra.Keys && Replicas !in Schema(tool);
    } else {
      assert extra.Keys == {} == Schema(tool) - {Name};
    }
  }

  lemma {:induction false} ProductionFixIsWellFormed(fix: Fix)
    requires IsProductionFix(fix)
    ensures FitsSchema(fix)
  {
    FixQuantities();
    if fix == OOM_FIX {
      LimitFixFits(PatchMemoryLimit, "catalogue", "400Mi");
    } else if fix == CPU_FIX {
      LimitFixFits(PatchCpuLimit, "user", "600m");
    } else {
      OtherFixFits(fix.tool, fix.extra);
    }
  }

  /**
   Every production fix would pass the validator too, if it is aimed at a named target in
   the one namespace, except the one for disk-full: its replica count is no parameter that
   the validator knows.
   */
  lemma {:induction false} ProductionFixesValidateButOne(fix: Fix, target: string, ns: string)
    requires IsProductionFix(fix)
    ensures Validate(fix.tool, Some(FixParams(fix, target, ns))) == None
       <==> fix.tool != RestoreFromDiskFull && IsNonEmptyText(Text(target)) && ns == DEFAULT_NAMESPACE
  {
    ProductionFixIsWellFormed(fix);
    FixIsWellFormed(fix, target, ns);
  }
}
