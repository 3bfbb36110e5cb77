/**
  The filter and shaping logic that the tool set, the client class and the
  top-level agent each repeat: which pluggable objects of a workflow are
  enabled for a project, how each becomes a `WorkflowRule`, and how the
  workflow listing is unwrapped. Defined once here; the three copies differ
  in their URLs, in how they treat an undecodable listing, in what the tool
  set's project lookup returns, and in that the draft cannot decode any body
  (see `Agent`).
 */
module Shaping {
  import opened Wrappers
  import opened Http
  import opened DataModels
  import opened CaseFold
  import opened Seqs

  /**
    The null-safe chain `configuration?.project?.shortName?.equals(projectId,
    ignoreCase = true)`: None as soon as a link of the chain is null.
   */
  function ShortNameMatch(u: Usage, projectId: string): Option<bool>
  {
    match u.configuration
    case None => None
    case Some(c) =>
      match c.project
      case None => None
      case Some(p) => Some(EqualsIgnoreCase(p.shortName, projectId))
  }

  /** The lambda passed to `any`: `usage.enabled && <chain> == true`. */
  predicate UsageEnables(u: Usage, projectId: string)
  {
    u.enabled && ShortNameMatch(u, projectId) == Some(true)
  }

  /** The usage is bound to a project whose short name matches `projectId` ignoring case. */
  predicate BoundTo(u: Usage, projectId: string)
  {
    && u.configuration.Some?
    && u.configuration.value.project.Some?
    && EqualsIgnoreCase(u.configuration.value.project.value.shortName, projectId)
  }

  /**
    The null-safe comparison with `true` is exactly "enabled and bound to the
    project": a missing configuration or project counts as no match.
   */
  lemma UsageEnablesIff(u: Usage, projectId: string)
    ensures UsageEnables(u, projectId) <==> u.enabled && BoundTo(u, projectId)
  {
  }

  /** `usages.any { UsageEnables(it, projectId) }`, scanning from the front. */
  function AnyUsageEnables(us: seq<Usage>, projectId: string): (b: bool)
    ensures b <==> exists i :: 0 <= i < |us| && UsageEnables(us[i], projectId)
  {
    if |us| == 0 then false
    else
      assert forall i :: 1 <= i < |us| ==> us[1..][i - 1] == us[i];
      UsageEnables(us[0], projectId) || AnyUsageEnables(us[1..], projectId)
  }

  /** `enabledForProject` of one pluggable object. */
  predicate EnabledForProject(po: PluggableObject, projectId: string)
  {
    AnyUsageEnables(po.usages, projectId)
  }

  /** `po.script?.script`. */
  function ScriptText(s: Option<Script>): (r: Option<string>)
    ensures r.Some? <==> s.Some? && s.value.script.Some?
    ensures r.Some? ==> r.value == s.value.script.value
  {
    match s
    case None => None
    case Some(sc) => sc.script
  }

  /** The `WorkflowRule` emitted for an enabled pluggable object of `wf`. */
  function ToRule(po: PluggableObject, wf: Workflow): (r: WorkflowRule)
    ensures r.ruleId == po.id && r.ruleName == po.name && r.ruleDescription == po.description
    ensures r.ruleScript == ScriptText(po.script)
    ensures r.workflowId == wf.id && r.workflowName == wf.name
  {
    WorkflowRule(
      ruleId := po.id,
      ruleName := po.name,
      ruleDescription := po.description,
      ruleScript := ScriptText(po.script),
      workflowId := wf.id,
      workflowName := wf.name)
  }

  /** The rule a pluggable object contributes, if it is enabled for the project. */
  function Keep(projectId: string, wf: Workflow): PluggableObject -> Option<WorkflowRule>
  {
    po => if EnabledForProject(po, projectId) then Some(ToRule(po, wf)) else None
  }

  /** The loop over `app.pluggableObjects` that appends one rule per enabled object. */
  function EnabledRules(pos: seq<PluggableObject>, projectId: string, wf: Workflow): (r: seq<WorkflowRule>)
    ensures |r| <= |pos|
  {
    FilterMap(pos, Keep(projectId, wf))
  }

  /**
    A rule is emitted iff some pluggable object is enabled for the project
    (some usage enabled and bound to it ignoring case), and every emitted rule
    is that object's rule under the given workflow.
   */
  lemma EnabledRulesIff(pos: seq<PluggableObject>, projectId: string, wf: Workflow)
    ensures forall i :: 0 <= i < |pos| && EnabledForProject(pos[i], projectId) ==>
      ToRule(pos[i], wf) in EnabledRules(pos, projectId, wf)
    ensures forall k :: 0 <= k < |EnabledRules(pos, projectId, wf)| ==>
      exists i :: 0 <= i < |pos| && EnabledForProject(pos[i], projectId) && EnabledRules(pos, projectId, wf)[k] == ToRule(pos[i], wf)
    ensures forall k :: 0 <= k < |EnabledRules(pos, projectId, wf)| ==>
      EnabledRules(pos, projectId, wf)[k].workflowId == wf.id && EnabledRules(pos, projectId, wf)[k].workflowName == wf.name
  {
    var f := Keep(projectId, wf);
    FilterMapMembers(pos, f);
    var r := EnabledRules(pos, projectId, wf);
    forall k | 0 <= k < |r|
      ensures exists i :: 0 <= i < |pos| && EnabledForProject(pos[i], projectId) && r[k] == ToRule(pos[i], wf)
    {
      var i :| 0 <= i < |pos| && f(pos[i]) == Some(r[k]);
      assert EnabledForProject(pos[i], projectId) && r[k] == ToRule(pos[i], wf);
    }
    forall i | 0 <= i < |pos| && EnabledForProject(pos[i], projectId)
      ensures ToRule(pos[i], wf) in r
    {
      assert f(pos[i]) == Some(ToRule(pos[i], wf));
    }
  }

  /**
    The emitted rules are, in order, the rules of the enabled pluggable
    objects: there are strictly increasing positions, exactly the enabled
    ones, whose rules make up the result.
   */
  lemma EnabledRulesOrdered(pos: seq<PluggableObject>, projectId: string, wf: Workflow)
    ensures exists idx: seq<nat> ::
      && |idx| == |EnabledRules(pos, projectId, wf)|
      && (forall k :: 0 <= k < |idx| ==>
            && idx[k] < |pos|
            && EnabledForProject(pos[idx[k]], projectId)
            && EnabledRules(pos, projectId, wf)[k] == ToRule(pos[idx[k]], wf))
      && (forall k, l :: 0 <= k < l < |idx| ==> idx[k] < idx[l])
      && (forall i :: 0 <= i < |pos| ==> (i in idx <==> EnabledForProject(pos[i], projectId)))
  {
    var f := Keep(projectId, wf);
    KeptIndicesValues(pos, f);
    KeptIndicesExact(pos, f);
    var idx := KeptIndices(pos, f);
    var r := EnabledRules(pos, projectId, wf);
    forall k | 0 <= k < |idx|
      ensures idx[k] < |pos| && EnabledForProject(pos[idx[k]], projectId) && r[k] == ToRule(pos[idx[k]], wf)
    {
      assert f(pos[idx[k]]) == Some(r[k]);
    }
    forall i | 0 <= i < |pos|
      ensures i in idx <==> EnabledForProject(pos[i], projectId)
    {
      assert f(pos[i]).Some? <==> EnabledForProject(pos[i], projectId);
    }
  }

  /** Filtering distributes over concatenation: no rule moves across the boundary. */
  lemma EnabledRulesAppend(a: seq<PluggableObject>, b: seq<PluggableObject>, projectId: string, wf: Workflow)
    ensures EnabledRules(a + b, projectId, wf) == EnabledRules(a, projectId, wf) + EnabledRules(b, projectId, wf)
  {
    FilterMapAppend(a, b, Keep(projectId, wf));
  }

  /** Whether a usage enables a rule depends on the project id only up to case. */
  lemma UsageEnablesUpToCase(u: Usage, p: string, q: string)
    requires EqualsIgnoreCase(p, q)
    ensures UsageEnables(u, p) <==> UsageEnables(u, q)
  {
  }

  /** Querying with a differently cased project id selects the same rules. */
  lemma {:induction false} EnabledRulesUpToCase(pos: seq<PluggableObject>, p: string, q: string, wf: Workflow)
    requires EqualsIgnoreCase(p, q)
    ensures EnabledRules(pos, p, wf) == EnabledRules(pos, q, wf)
    decreases |pos|
  {
    if |pos| > 0 {
      var po := pos[|pos| - 1];
      EnabledRulesUpToCase(pos[..|pos| - 1], p, q, wf);
      forall i | 0 <= i < |po.usages| {
        UsageEnablesUpToCase(po.usages[i], p, q);
      }
      assert EnabledForProject(po, p) <==> EnabledForProject(po, q);
    }
  }

  /**
    The shaping shared by every copy once the detail response is in: a
    failed transport or an undecodable success throws, a non-success status
    gives no rules, and a decoded body gives the enabled rules.
   */
  function RulesFromResponse(resp: Response<AppDetails>, projectId: string, wf: Workflow): (r: Outcome<seq<WorkflowRule>>)
    ensures resp.TransportFailure? ==> r.Threw?
    ensures resp.Response? && !IsSuccess(resp.status) ==> r == Returned([])
    ensures resp.Response? && IsSuccess(resp.status) && resp.body.Malformed? ==> r.Threw?
    ensures resp.Response? && IsSuccess(resp.status) && resp.body.Decoded? ==>
      r == Returned(EnabledRules(resp.body.value.pluggableObjects, projectId, wf))
  {
    match resp
    case TransportFailure => Threw
    case Response(status, body) =>
      if !IsSuccess(status) then Returned([])
      else
        match BodyOf(body)
        case Threw => Threw
        case Returned(app) => Returned(EnabledRules(app.pluggableObjects, projectId, wf))
  }

  /** The selector `{ it.workflow }`. */
  function WorkflowOf(u: WorkflowUsageResponse): Option<Workflow>
  {
    u.workflow
  }

  /** `mapNotNull { it.workflow }`: the present workflows, in listing order. */
  function PresentWorkflows(us: seq<WorkflowUsageResponse>): (r: seq<Workflow>)
    ensures |r| <= |us|
  {
    FilterMap(us, WorkflowOf)
  }

  /**
    Unwrapping keeps exactly the entries that carry a workflow, in order, and
    an entry without one leaves no trace.
   */
  lemma PresentWorkflowsSpec(us: seq<WorkflowUsageResponse>)
    ensures forall i :: 0 <= i < |us| && us[i].workflow.Some? ==> us[i].workflow.value in PresentWorkflows(us)
    ensures forall k :: 0 <= k < |PresentWorkflows(us)| ==>
      exists i :: 0 <= i < |us| && us[i].workflow == Some(PresentWorkflows(us)[k])
    ensures (forall i :: 0 <= i < |us| ==> us[i].workflow.None?) ==> PresentWorkflows(us) == []
  {
    FilterMapMembers(us, WorkflowOf);
    var r := PresentWorkflows(us);
    forall k | 0 <= k < |r|
      ensures exists i :: 0 <= i < |us| && us[i].workflow == Some(r[k])
    {
      var i :| 0 <= i < |us| && WorkflowOf(us[i]) == Some(r[k]);
    }
    if |r| > 0 {
      var i :| 0 <= i < |us| && WorkflowOf(us[i]) == Some(r[0]);
    }
  }

  /** When every entry carries a workflow, unwrapping loses nothing and keeps the order. */
  lemma {:induction false} PresentWorkflowsAllPresent(us: seq<WorkflowUsageResponse>)
    requires forall i :: 0 <= i < |us| ==> us[i].workflow.Some?
    ensures |PresentWorkflows(us)| == |us|
    ensures forall i :: 0 <= i < |us| ==> PresentWorkflows(us)[i] == us[i].workflow.value
    decreases |us|
  {
    if |us| > 0 {
      PresentWorkflowsAllPresent(us[..|us| - 1]);
    }
  }

  /** Listing shaping of the client and the top-level agent: an undecodable body throws. */
  function WorkflowsFromResponse(resp: Response<seq<WorkflowUsageResponse>>): (r: Outcome<seq<Workflow>>)
    ensures resp.TransportFailure? ==> r.Threw?
    ensures resp.Response? && !IsSuccess(resp.status) ==> r == Returned([])
    ensures resp.Response? && IsSuccess(resp.status) && resp.body.Malformed? ==> r.Threw?
    ensures resp.Response? && IsSuccess(resp.status) && resp.body.Decoded? ==>
      r == Returned(PresentWorkflows(resp.body.value))
  {
    match resp
    case TransportFailure => Threw
    case Response(status, body) =>
      if !IsSuccess(status) then Returned([])
      else
        match BodyOf(body)
        case Threw => Threw
        case Returned(us) => Returned(PresentWorkflows(us))
  }

  /** Listing shaping of the tool set: the decoder's exception is caught and gives no workflows. */
  function WorkflowsFromResponseTolerant(resp: Response<seq<WorkflowUsageResponse>>): (r: Outcome<seq<Workflow>>)
    ensures r.Threw? <==> resp.TransportFailure?
    ensures resp.Response? && (!IsSuccess(resp.status) || resp.body.Malformed?) ==> r == Returned([])
    ensures resp.Response? && IsSuccess(resp.status) && resp.body.Decoded? ==>
      r == Returned(PresentWorkflows(resp.body.value))
  {
    match resp
    case TransportFailure => Threw
    case Response(status, body) =>
      if !IsSuccess(status) then Returned([])
      else
        match body
        case Malformed => Returned([])
        case Decoded(us) => Returned(PresentWorkflows(us))
  }

  /**
    The two listing shapings agree on every response except a success whose
    body does not decode: there the strict one throws and the tolerant one
    gives no workflows.
   */
  lemma ListingShapingsDiffer(resp: Response<seq<WorkflowUsageResponse>>)
    ensures WorkflowsFromResponse(resp) != WorkflowsFromResponseTolerant(resp) <==>
      resp.Response? && IsSuccess(resp.status) && resp.body.Malformed?
    ensures WorkflowsFromResponse(resp) != WorkflowsFromResponseTolerant(resp) ==>
      WorkflowsFromResponse(resp).Threw? && WorkflowsFromResponseTolerant(resp) == Returned([])
  {
  }

  /** The `for` loop of `getEnabledRulesForWorkflow`, appending to a mutable list. */
  method CollectEnabledRules(app: AppDetails, projectId: string, wf: Workflow) returns (rules: seq<WorkflowRule>)
    ensures rules == EnabledRules(app.pluggableObjects, projectId, wf)
  {
    var pos := app.pluggableObjects;
    rules := [];
    for i := 0 to |pos|
      invariant rules == EnabledRules(pos[..i], projectId, wf)
    {
      var po := pos[i];
      assert pos[..i + 1][..i] == pos[..i];
      if AnyUsageEnables(po.usages, projectId) {
        rules := rules + [ToRule(po, wf)];
      }
    }
    assert pos[..|pos|] == pos;
  }
}
