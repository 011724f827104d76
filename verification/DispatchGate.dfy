/**
 What reaches the cluster: the dispatch gate (dispatch_gate.py), the scoring rule it has
 to agree with (trust_gate.py) and the dispatch decision around it (act in p3_agent.py),
 which also consults the trust database.
 */
module DispatchGate {
  import opened Options
  import opened ActionSafety
  import opened TrustLadder
  import opened TrustDatabase
  import opened TrustRuns

  type ActionMap = map<string, Fix>

  datatype Reason = CrossTool | UnsafeMagnitude(verdict: Verdict)

  datatype Decision = LeaveAlone | Substitute(tool: Tool, params: Params, reason: Reason)

  /** Where an action is aimed. */
  datatype Site = Site(target: string, ns: string)

  function FixFor(actions: ActionMap, cls: string, site: Site): Params
    requires cls in actions
  {
    FixParams(actions[cls], site.target, site.ns)
  }

  function Check(actions: ActionMap, predicted: string, actual: string, tool: Tool, params: Params, site: Site,
      r: Readings): Decision {
    if predicted == actual || actual !in actions then LeaveAlone
    else if tool != actions[actual].tool then Substitute(actions[actual].tool, FixFor(actions, actual, site), CrossTool)
    else
      var verdict := CheckSafe(tool, params, actual, r);
      if verdict != Safe then Substitute(actions[actual].tool, FixFor(actions, actual, site), UnsafeMagnitude(verdict))
      else LeaveAlone
  }

  /** How a proposal is scored for dimension C. */
  predicate ActionIsCorrect(cls: string, tool: Tool, params: Params, groundTruth: Tool, r: Readings) {
    if tool != groundTruth then false
    else if tool !in MAGNITUDE_SENSITIVE then true
    else CheckSafe(tool, params, cls, r) == Safe
  }

  /** What the gate lets through: the tool and the parameters that are dispatched. */
  function Gated(actions: ActionMap, predicted: string, actual: string, tool: Tool, params: Params, site: Site,
      r: Readings): (Tool, Params) {
    match Check(actions, predicted, actual, tool, params, site, r)
    case LeaveAlone => (tool, params)
    case Substitute(t, p, _) => (t, p)
  }

  /** Under a wrong diagnosis the gate leaves a proposal alone exactly when scoring accepts it for the actual class. */
  lemma {:induction false} GateAgreesWithScoring(actions: ActionMap, predicted: string, actual: string, tool: Tool,
      params: Params, site: Site, r: Readings)
    requires predicted != actual && actual in actions
    ensures Check(actions, predicted, actual, tool, params, site, r) == LeaveAlone
       <==> ActionIsCorrect(actual, tool, params, actions[actual].tool, r)
  {
  }

  /**
   Whatever was proposed, what goes out is the actual class's tool, with its own fix or a magnitude
   that is safe for it.
   */
  lemma {:induction false} GatedFitsTheFault(actions: ActionMap, predicted: string, actual: string, tool: Tool,
      params: Params, site: Site, r: Readings)
    requires predicted != actual && actual in actions
    ensures var out := Gated(actions, predicted, actual, tool, params, site, r);
            && out.0 == actions[actual].tool
            && (out.1 == FixFor(actions, actual, site) || CheckSafe(out.0, out.1, actual, r) == Safe)
            && Gated(actions, predicted, actual, out.0, out.1, site, r) == out
  {
  }

  // --- the dispatch decision ---

  datatype Proposal = Proposal(tool: Tool, params: Params)

  datatype Request = Request(
    predicted: string, actual: Option<string>, llmDiagnosed: bool, proposal: Option<Proposal>, site: Site)

  datatype Source = Proposed | Production | GateSubstituted | SafetyNet

  datatype Dispatch = Nothing | Action(tool: Tool, params: Params, source: Source)

  predicate MayAct(db: Db, cls: string) {
    TrustOf(db.trust, cls).state.CanAct? && !HoldOf(db.holds, cls).active
  }

  function DispatchWithGate(actions: ActionMap, req: Request, tool: Tool, params: Params, source: Source,
      r: Readings): Dispatch {
    match req.actual
    case None => Action(tool, params, source)
    case Some(actual) =>
      match Check(actions, req.predicted, actual, tool, params, req.site, r)
      case LeaveAlone => Action(tool, params, source)
      case Substitute(t, p, _) => Action(t, p, GateSubstituted)
  }

  function Act(actions: ActionMap, db: Db, req: Request, r: Readings): Dispatch {
    if req.predicted !in actions then
      if req.actual.Some? && req.actual.value != req.predicted && req.actual.value in actions && MayAct(db, req.actual.value)
      then Action(actions[req.actual.value].tool, FixFor(actions, req.actual.value, req.site), SafetyNet)
      else Nothing
    else if !MayAct(db, req.predicted) then Nothing
    else
      var fix := actions[req.predicted];
      if && req.llmDiagnosed && StandingOf(db.action, req.predicted).promoted && req.proposal.Some?
         && req.proposal.value.tool == fix.tool
         && CheckSafe(req.proposal.value.tool, req.proposal.value.params, req.predicted, r) == Safe
      then DispatchWithGate(actions, req, req.proposal.value.tool, req.proposal.value.params, Proposed, r)
      else DispatchWithGate(actions, req, fix.tool, FixFor(actions, req.predicted, req.site), Production, r)
  }

  /** The class whose trust decides: the diagnosed one if it has a fix, else the actual one. */
  function Accountable(actions: ActionMap, req: Request): Option<string> {
    if req.predicted in actions then Some(req.predicted)
    else if req.actual.Some? && req.actual.value in actions then req.actual
    else None
  }

  /** Something is dispatched exactly when the accountable class can act and is not on hold. */
  lemma {:induction false} DispatchIffTrusted(actions: ActionMap, db: Db, req: Request, r: Readings)
    ensures Act(actions, db, req, r).Action?
       <==> Accountable(actions, req).Some? && MayAct(db, Accountable(actions, req).value)
  {
  }

  /** The class an action has to fit: the actual one when it is known and has a fix, else the diagnosed one. */
  function Beneficiary(actions: ActionMap, req: Request): string {
    if req.actual.Some? && req.actual.value in actions then req.actual.value else req.predicted
  }

  /**
   Every dispatch uses the beneficiary's own tool, with a class's fix verbatim or with a
   magnitude that is safe for the beneficiary. A proposal that goes out unchanged is one
   that scoring counts as correct for it.
   */
  lemma {:induction false} DispatchFitsTheFault(actions: ActionMap, db: Db, req: Request, r: Readings)
    requires Act(actions, db, req, r).Action?
    ensures var cls := Beneficiary(actions, req);
            var out := Act(actions, db, req, r);
            && cls in actions && out.tool == actions[cls].tool
            && (out.params == FixFor(actions, cls, req.site) || CheckSafe(out.tool, out.params, cls, r) == Safe)
            && (out.source == Proposed ==>
                  && req.proposal == Some(Proposal(out.tool, out.params))
                  && ActionIsCorrect(cls, out.tool, out.params, actions[cls].tool, r))
  {
  }

  /** As in production: no two classes share a tool. */
  ghost predicate OneToolPerClass(actions: ActionMap) {
    forall a, b :: a in actions && b in actions && actions[a].tool == actions[b].tool ==> a == b
  }

  lemma {:induction false} ProductionHasOneToolPerClass()
    ensures OneToolPerClass(PRODUCTION)
  {
  }

  /**
   Then under a wrong diagnosis every dispatch is the actual class's own fix, and the gate never
   gets to weigh a magnitude.
   */
  lemma {:induction false} WrongDiagnosisGetsTheRealFix(actions: ActionMap, db: Db, req: Request, r: Readings)
    requires OneToolPerClass(actions) && Act(actions, db, req, r).Action?
    requires req.actual.Some? && req.actual.value != req.predicted && req.actual.value in actions
    ensures var actual := req.actual.value;
            Act(actions, db, req, r)
            == Action(actions[actual].tool, FixFor(actions, actual, req.site),
                      if req.predicted in actions then GateSubstituted else SafetyNet)
  {
  }

  /** No fix of the map redirects itself. */
  predicate AllKeepAim(actions: ActionMap) {
    forall cls :: cls in actions ==> KeepsAim(actions[cls])
  }

  lemma {:induction false} ProductionKeepsAim()
    ensures AllKeepAim(PRODUCTION)
  {
    forall cls | cls in PRODUCTION
      ensures KeepsAim(PRODUCTION[cls])
    {
      ProductionFixes(cls);
      ProductionFixIsWellFormed(PRODUCTION[cls]);
    }
  }

  /**
   With one tool per class, whatever is dispatched other than a proposal is aimed at the
   target and the namespace of the request and has the extras of the beneficiary's fix and
   no other field.
   */
  lemma {:induction false} FixesAreAimedAtTheSite(actions: ActionMap, db: Db, req: Request, r: Readings)
    requires AllKeepAim(actions) && OneToolPerClass(actions)
    requires Act(actions, db, req, r).Action? && Act(actions, db, req, r).source != Proposed
    ensures var out, cls := Act(actions, db, req, r), Beneficiary(actions, req);
            && cls in actions && out.tool == actions[cls].tool
            && AimedAt(out.params, req.site.target, req.site.ns, actions[cls].extra)
  {
    DispatchFitsTheFault(actions, db, req, r);
    FixIsAimed(actions[Beneficiary(actions, req)], req.site.target, req.site.ns);
    if req.actual.Some? && req.actual.value != req.predicted && req.actual.value in actions {
      WrongDiagnosisGetsTheRealFix(actions, db, req, r);
    }
  }

  /**
   What an LLM proposal needs to be sent at all: trust in its class's action, the class's tool and
   a magnitude safe for it.
   */
  predicate ProposalIsTrusted(actions: ActionMap, db: Db, req: Request, r: Readings) {
    && req.predicted in actions && MayAct(db, req.predicted)
    && req.llmDiagnosed && StandingOf(db.action, req.predicted).promoted && req.proposal.Some?
    && req.proposal.value.tool == actions[req.predicted].tool
    && CheckSafe(req.proposal.value.tool, req.proposal.value.params, req.predicted, r) == Safe
  }

  /** A proposal goes out exactly when it is trusted and fits the class that benefits; and then it goes out as it is. */
  lemma {:induction false} ProposalGoesOutExactlyWhen(actions: ActionMap, db: Db, req: Request, r: Readings)
    ensures var out, cls := Act(actions, db, req, r), Beneficiary(actions, req);
            (out.Action? && out.source == Proposed)
            <==> && ProposalIsTrusted(actions, db, req, r)
                 && (cls == req.predicted
                     || ActionIsCorrect(cls, req.proposal.value.tool, req.proposal.value.params, actions[cls].tool, r))
  {
  }

  // --- with the trust database ---

  /** Right after a trip nothing is dispatched, whatever is asked for. */
  lemma {:induction false} NothingActsAfterATrip(policy: Policy, db: Db, actions: ActionMap, req: Request, r: Readings)
    ensures Act(actions, Tripped(policy, db), req, r) == Nothing
  {
    TripIsGlobal(policy, db);
    DispatchIffTrusted(actions, Tripped(policy, db), req, r);
  }

  /** A class on hold is not acted for, by its own diagnosis or by the safety net. */
  lemma {:induction false} HeldClassesDoNotAct(run: Run, n: nat, k: nat, cls: string, actions: ActionMap,
      req: Request, r: Readings)
    requires k < n <= |run.events| && HoldOf(run.start.holds, cls) == Hold(false, None)
    requires StartedAndKept(run, k, n, cls) && Accountable(actions, req) == Some(cls)
    ensures Act(actions, After(run, n), req, r) == Nothing
  {
    HoldHasACause(run, n, cls);
    DispatchIffTrusted(actions, After(run, n), req, r);
  }

  /** After a trip a proposal of the LLM goes out only on five correct actions in a row since that trip. */
  lemma {:induction false} ProposalsAreEarned(run: Run, k: nat, n: nat, actions: ActionMap, req: Request, r: Readings)
    requires k < n <= |run.events| && TripsAt(run, k) && req.predicted in run.policy.classes
    requires var out := Act(actions, After(run, n), req, r); out.Action? && out.source == Proposed
    ensures CorrectSince(run, k + 1, n, C, req.predicted) >= PROMOTION_STREAK
  {
    PromotionIsEarnedAfterATrip(run, k, n, C, req.predicted);
  }

  /** A class that has its five correct outcomes and no unreleased hold is acted for. */
  lemma {:induction false} EarnedClassesAct(run: Run, n: nat, cls: string, actions: ActionMap, req: Request, r: Readings)
    requires n <= |run.events| && HoldOf(run.start.holds, cls) == Hold(false, None)
    requires cls in run.policy.promotable && Earned(TrustOf(run.start.trust, cls))
    requires TrustOf(After(run, n).trust, cls).streak >= 5 && Accountable(actions, req) == Some(cls)
    requires forall k :: 0 <= k < n ==> !StartedAndKept(run, k, n, cls)
    ensures Act(actions, After(run, n), req, r).Action?
  {
    TrustStaysEarned(run, n, cls);
    HoldHasACause(run, n, cls);
    DispatchIffTrusted(actions, After(run, n), req, r);
  }
}
