/**
 The action proposal of action_proposer.py: up to two tries with the provider that made
 the diagnosis, one with the next provider of the chain, then the deterministic fix.
 The replies of the models are an arbitrary stream, indexed by the number of the call.
 */
module ActionProposer {
  import opened Options
  import opened ActionSafety
  import opened DispatchGate
  import TrustLadder
  import TrustDatabase

  datatype Reply = CallFailed | NoTool | Proposes(tool: Tool, params: Option<Params>)

  datatype Try = ProviderFailed | Unreadable | Rejected(reason: Rejection) | Validated(tool: Tool, params: Params)

  function ProposeOnce(actions: ActionMap, cls: string, reply: Reply): Try {
    match reply
    case CallFailed => ProviderFailed
    case NoTool => Unreadable
    case Proposes(tool, params) =>
      match Validate(tool, params)
      case Some(reason) => Rejected(reason)
      case None =>
        if cls in actions && tool != actions[cls].tool then Rejected(ToolMismatch)
        else Validated(tool, if tool == RestoreFromDiskFull then params.GetOr(map[]) + DISK_FULL_EXTRA else params.GetOr(map[]))
  }

  datatype Entry = Entry(provider: string, model: string)

  /** A call to an entry of the chain, with the rejection it is told about. */
  datatype Call = Call(entry: nat, feedback: Option<Rejection>)

  datatype Origin = LlmPrimaryRetry | LlmEscalated | DeterministicFallback

  datatype Outcome =
    | NotAutoFixClass
    | Chosen(tool: Tool, params: Params, origin: Origin, provider: Option<nat>, calls: seq<Call>, tries: seq<Try>)

  method FindChainEntry(chain: seq<Entry>, entry: Entry) returns (i: Option<nat>)
    ensures i.None? <==> entry !in chain
    ensures i.Some? ==> i.value < |chain| && chain[i.value] == entry && entry !in chain[..i.value]
  {
    for k := 0 to |chain|
      invariant entry !in chain[..k]
    {
      if chain[k] == entry {
        return Some(k);
      }
    }
    assert chain[..|chain|] == chain;
    return None;
  }

  /** Try k is the answer to call k. */
  ghost predicate TriesAnswer(o: Outcome, actions: ActionMap, cls: string, replies: nat -> Reply)
    requires o.Chosen?
  {
    |o.tries| == |o.calls| && forall k :: 0 <= k < |o.tries| ==> o.tries[k] == ProposeOnce(actions, cls, replies(k))
  }

  /**
   The calls made when the diagnosing provider is entry d: once; again, with the reason,
   only if that was rejected; and once to entry d + 1, told nothing, if neither passed.
   */
  ghost predicate CallsFollow(o: Outcome, d: nat, size: nat)
    requires o.Chosen? && |o.tries| == |o.calls|
  {
    var own := if |o.tries| > 0 && o.tries[0].Rejected? then 2 else 1;
    var escalated := |o.calls| > own;
    && own <= |o.calls| <= own + 1
    && o.calls[0] == Call(d, None)
    && (own == 2 ==> o.calls[1] == Call(d, Some(o.tries[0].reason)))
    && (escalated <==> d + 1 < size && !o.tries[own - 1].Validated?)
    && (escalated ==> o.calls[own] == Call(d + 1, None))
  }

  /** The result is the last try if it passed, and the deterministic fix otherwise. */
  ghost predicate ResultFollows(o: Outcome, actions: ActionMap, cls: string, site: Site, own: Option<nat>)
    requires o.Chosen? && cls in actions && |o.tries| == |o.calls|
  {
    var n := |o.tries|;
    if n > 0 && o.tries[n - 1].Validated? then
      && o.tool == o.tries[n - 1].tool && o.params == o.tries[n - 1].params
      && o.provider == Some(o.calls[n - 1].entry)
      && o.origin == (if o.provider == own then LlmPrimaryRetry else LlmEscalated)
    else
      && o.tool == actions[cls].tool && o.params == FixFor(actions, cls, site)
      && o.provider == None && o.origin == DeterministicFallback
  }

  ghost predicate IsProposal(o: Outcome, actions: ActionMap, cls: string, site: Site, own: Option<nat>, size: nat,
      replies: nat -> Reply)
    requires o.Chosen? && cls in actions
  {
    && TriesAnswer(o, actions, cls, replies)
    && (own.None? ==> o.calls == [])
    && (own.Some? ==> CallsFollow(o, own.value, size))
    && ResultFollows(o, actions, cls, site, own)
  }

  method ProposeAction(actions: ActionMap, cls: string, site: Site, chain: seq<Entry>, diagnosedBy: Entry,
      replies: nat -> Reply)
    returns (o: Outcome, ghost own: Option<nat>)
    ensures o.NotAutoFixClass? <==> cls !in actions
    ensures own.Some? ==> own.value < |chain| && chain[own.value] == diagnosedBy && diagnosedBy !in chain[..own.value]
    ensures o.Chosen? ==>
              && (own.None? <==> diagnosedBy !in chain)
              && IsProposal(o, actions, cls, site, own, |chain|, replies)
  {
    own := None;
    if cls !in actions {
      return NotAutoFixClass, own;
    }
    var found := FindChainEntry(chain, diagnosedBy);
    own := found;
    var calls: seq<Call>, tries: seq<Try> := [], [];
    if found.Some? {
      var d := found.value;
      var first := ProposeOnce(actions, cls, replies(0));
      calls, tries := [Call(d, None)], [first];
      if first.Validated? {
        return Chosen(first.tool, first.params, LlmPrimaryRetry, Some(d), calls, tries), own;
      }
      if first.Rejected? {
        var second := ProposeOnce(actions, cls, replies(1));
        calls, tries := calls + [Call(d, Some(first.reason))], tries + [second];
        if second.Validated? {
          return Chosen(second.tool, second.params, LlmPrimaryRetry, Some(d), calls, tries), own;
        }
      }
      if d < |chain| - 1 {
        var third := ProposeOnce(actions, cls, replies(|calls|));
        calls, tries := calls + [Call(d + 1, None)], tries + [third];
        if third.Validated? {
          return Chosen(third.tool, third.params, LlmEscalated, Some(d + 1), calls, tries), own;
        }
      }
    }
    return Chosen(actions[cls].tool, FixFor(actions, cls, site), DeterministicFallback, None, calls, tries), own;
  }

  // --- what a proposal is good for ---

  /**
   A reply passes exactly when it is a call of the class's own tool that the validator accepts; and
   a rejection says why.
   */
  lemma {:induction false} PassesExactly(actions: ActionMap, cls: string, reply: Reply)
    requires cls in actions
    ensures var got := ProposeOnce(actions, cls, reply);
            && (got.Validated? <==> reply.Proposes? && reply.tool == actions[cls].tool && Validate(reply.tool, reply.params) == None)
            && (got.Rejected? <==> reply.Proposes? && !got.Validated?)
            && (got.Rejected? ==>
                  got.reason == match Validate(reply.tool, reply.params)
                                case Some(reason) => reason
                                case None => ToolMismatch)
            && (got.Validated? ==>
                  && got.tool == reply.tool
                  && got.params.Keys == reply.params.value.Keys + (if reply.tool == RestoreFromDiskFull then {Replicas} else {})
                  && forall field :: field in reply.params.value && field != Replicas ==> got.params[field] == reply.params.value[field])
  {
  }

  /** The deterministic fix is aimed at the site, with the class's own extras and no others. */
  lemma {:induction false} FallbackIsAimed(o: Outcome, actions: ActionMap, cls: string, site: Site, own: Option<nat>,
      size: nat,
      replies: nat -> Reply)
    requires o.Chosen? && cls in actions && IsProposal(o, actions, cls, site, own, size, replies)
    requires KeepsAim(actions[cls]) && o.origin == DeterministicFallback
    ensures o.tool == actions[cls].tool && AimedAt(o.params, site.target, site.ns, actions[cls].extra)
  {
    FixIsAimed(actions[cls], site.target, site.ns);
  }

  /** At most three calls, to at most two adjacent entries, and only the provider that was rejected hears why. */
  lemma {:induction false} AtMostThreeCalls(o: Outcome, actions: ActionMap, cls: string, site: Site,
      own: Option<nat>, size: nat, replies: nat -> Reply)
    requires o.Chosen? && cls in actions && IsProposal(o, actions, cls, site, own, size, replies)
    ensures |o.calls| <= 3
    ensures forall k :: 0 <= k < |o.calls| ==> own.Some? && own.value <= o.calls[k].entry <= own.value + 1
    ensures forall k :: 0 <= k < |o.calls| && o.calls[k].feedback.Some? ==>
              && k == 1 && o.calls[0].entry == o.calls[1].entry
              && o.tries[0] == Rejected(o.calls[1].feedback.value)
    ensures forall k, j :: 0 <= j < k < |o.calls| ==> o.calls[j].entry <= o.calls[k].entry && !o.tries[j].Validated?
  {
  }

  /** The fallback is used exactly when no try passed. */
  lemma {:induction false} FallbackIffNothingPassed(o: Outcome, actions: ActionMap, cls: string, site: Site,
      own: Option<nat>, size: nat, replies: nat -> Reply)
    requires o.Chosen? && cls in actions && IsProposal(o, actions, cls, site, own, size, replies)
    ensures o.origin == DeterministicFallback <==> forall k :: 0 <= k < |o.tries| ==> !o.tries[k].Validated?
  {
    AtMostThreeCalls(o, actions, cls, site, own, size, replies);
    var n := |o.tries|;
    assert forall j :: 0 <= j < n - 1 ==> !o.tries[j].Validated?;
    if o.origin != DeterministicFallback {
      assert n > 0 && o.tries[n - 1].Validated?;
    }
  }

  /**
   The prompt tells the model to restart instead when the metric it needs is missing. For
   a class with another tool such a proposal is always rejected, so a model that obeys
   ends in the deterministic fix.
   */
  lemma {:induction false} ObeyingTheExceptionEndsInTheFallback(o: Outcome, actions: ActionMap, cls: string,
      site: Site, own: Option<nat>, size: nat, replies: nat -> Reply)
    requires o.Chosen? && cls in actions && IsProposal(o, actions, cls, site, own, size, replies)
    requires actions[cls].tool != RestartDeployment
    requires forall k :: replies(k).Proposes? && replies(k).tool == RestartDeployment
    ensures o.origin == DeterministicFallback && o.tool == actions[cls].tool && o.params == FixFor(actions, cls, site)
  {
    forall k | 0 <= k < |o.tries|
      ensures o.tries[k].Rejected?
    {
      assert o.tries[k] == ProposeOnce(actions, cls, replies(k));
    }
  }

  /** The parameters a model chose passed the validator, except that disk-full then gets its one replica. */
  lemma {:induction false} PassedIsValid(actions: ActionMap, cls: string, reply: Reply)
    requires ProposeOnce(actions, cls, reply).Validated?
    ensures var got := ProposeOnce(actions, cls, reply);
            && (cls in actions ==> got.tool == actions[cls].tool)
            && (if got.tool == RestoreFromDiskFull then Validate(got.tool, Some(got.params - {Replicas})) == None
                else Validate(got.tool, Some(got.params)) == None)
            && (got.tool == RestoreFromDiskFull ==> Get(got.params, Replicas) == Number(1))
  {
    if reply.tool == RestoreFromDiskFull {
      var got := ProposeOnce(actions, cls, reply);
      assert Replicas !in reply.params.value;
      assert got.params - {Replicas} == reply.params.value;
    }
  }

  /** Whoever proposed it, the action uses the class's own tool, and disk-full ends with one replica. */
  lemma {:induction false} ProposalUsesTheMappedTool(o: Outcome, actions: ActionMap, cls: string, site: Site,
      own: Option<nat>, size: nat, replies: nat -> Reply)
    requires o.Chosen? && cls in actions && IsProposal(o, actions, cls, site, own, size, replies)
    ensures o.tool == actions[cls].tool
    ensures actions[cls] == Fix(RestoreFromDiskFull, DISK_FULL_EXTRA) ==> Get(o.params, Replicas) == Number(1)
    ensures o.origin != DeterministicFallback ==>
              Validate(o.tool, Some(if o.tool == RestoreFromDiskFull then o.params - {Replicas} else o.params)) == None
  {
    var n := |o.tries|;
    if n > 0 && o.tries[n - 1].Validated? {
      PassedIsValid(actions, cls, replies(n - 1));
    }
  }

  /**
   So in the dispatch decision the veto on the tool never fires for a proposal made for the
   diagnosed class: only its magnitude is left to judge.
   */
  lemma {:induction false} OnlyTheMagnitudeIsVetoed(o: Outcome, actions: ActionMap, site: Site, own: Option<nat>, size: nat,
      replies: nat -> Reply, db: TrustDatabase.Db, req: Request, r: Readings)
    requires o.Chosen? && req.predicted in actions && IsProposal(o, actions, req.predicted, site, own, size, replies)
    requires req.llmDiagnosed && req.proposal == Some(Proposal(o.tool, o.params))
    requires req.actual.None? || req.actual.value == req.predicted || req.actual.value !in actions
    requires MayAct(db, req.predicted) && TrustLadder.StandingOf(db.action, req.predicted).promoted
    ensures var out := Act(actions, db, req, r);
            out.Action? && (out.source == Proposed <==> CheckSafe(o.tool, o.params, req.predicted, r) == Safe)
  {
    ProposalUsesTheMappedTool(o, actions, req.predicted, site, own, size, replies);
  }
}
