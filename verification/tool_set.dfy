/**
  `YouTrackToolSet`: the tools the agent calls. URLs are the configured
  domain followed directly by the resource path (no scheme is added). The
  workflow listing tolerates an undecodable body; the per-project
  aggregation fans out over the discovered workflows and absorbs each
  task's failure.
 */
module ToolSet {
  import opened Http
  import opened DataModels
  import opened Shaping
  import opened Endpoints
  import opened FanOut

  function ProjectUrl(c: Credentials, projectId: string): string {
    c.domain + ProjectPath(projectId) + ProjectFields
  }

  function WorkflowsUrl(c: Credentials, projectId: string): string {
    c.domain + WorkflowsPath(projectId) + WorkflowFields
  }

  function AppUrl(c: Credentials, workflowId: string): string {
    c.domain + AppPath(workflowId) + AppFields
  }

  function ListingRequest(c: Credentials, projectId: string): Request {
    Get(WorkflowsUrl(c, projectId), Bearer(c.token))
  }

  function DetailRequest(c: Credentials, wf: Workflow): Request {
    Get(AppUrl(c, wf.id), Bearer(c.token))
  }

  /** The text returned for a project the lookup does not find. */
  function NotFoundMessage(projectId: string): string {
    "Project with id '" + projectId + "' does not exist."
  }

  /**
    `validateProject`: the raw body on success, the not-found message on any
    other status; never an absent value.
   */
  function ValidateProject(c: Credentials, s: Server, projectId: string): (r: Call<string>)
    ensures r.requests == [Get(ProjectUrl(c, projectId), Bearer(c.token))]
    ensures r.result.Threw? <==>
      var resp := s.projectText(ProjectUrl(c, projectId));
      resp.TransportFailure? || (IsSuccess(resp.status) && resp.body.Malformed?)
    ensures
      var resp := s.projectText(ProjectUrl(c, projectId));
      resp.Response? && !IsSuccess(resp.status) ==> r.result == Returned(NotFoundMessage(projectId))
    ensures
      var resp := s.projectText(ProjectUrl(c, projectId));
      resp.Response? && IsSuccess(resp.status) && resp.body.Decoded? ==> r.result == Returned(resp.body.value)
  {
    var url := ProjectUrl(c, projectId);
    var result :=
      match s.projectText(url)
      case TransportFailure => Threw
      case Response(status, body) =>
        if IsSuccess(status) then BodyOf(body) else Returned(NotFoundMessage(projectId));
    Call(result, [Get(url, Bearer(c.token))])
  }

  /**
    `getProjectWorkflows` and its suspending twin `fetchProjectWorkflows`,
    which behave alike: no workflows on a non-success status or an
    undecodable body, otherwise the present workflows in listing order. Only
    a transport failure escapes.
   */
  function ProjectWorkflows(c: Credentials, s: Server, projectId: string): (r: Call<seq<Workflow>>)
    ensures r.requests == [ListingRequest(c, projectId)]
    ensures r.result.Threw? <==> s.workflows(WorkflowsUrl(c, projectId)).TransportFailure?
    ensures
      var resp := s.workflows(WorkflowsUrl(c, projectId));
      resp.Response? && (!IsSuccess(resp.status) || resp.body.Malformed?) ==> r.result == Returned([])
    ensures
      var resp := s.workflows(WorkflowsUrl(c, projectId));
      resp.Response? && IsSuccess(resp.status) && resp.body.Decoded? ==>
        r.result == Returned(PresentWorkflows(resp.body.value))
  {
    Call(WorkflowsFromResponseTolerant(s.workflows(WorkflowsUrl(c, projectId))), [ListingRequest(c, projectId)])
  }

  /**
    `getEnabledRulesForWorkflow`: no rules on a non-success status; the
    enabled rules of the decoded detail otherwise. The body is decoded
    outside any `try`, so an undecodable detail throws.
   */
  function EnabledRulesForWorkflow(c: Credentials, s: Server, projectId: string, wf: Workflow): (r: Call<seq<WorkflowRule>>)
    ensures r.requests == [DetailRequest(c, wf)]
    ensures
      var resp := s.app(AppUrl(c, wf.id));
      r.result.Threw? <==> resp.TransportFailure? || (IsSuccess(resp.status) && resp.body.Malformed?)
    ensures
      var resp := s.app(AppUrl(c, wf.id));
      resp.Response? && !IsSuccess(resp.status) ==> r.result == Returned([])
    ensures
      var resp := s.app(AppUrl(c, wf.id));
      resp.Response? && IsSuccess(resp.status) && resp.body.Decoded? ==>
        r.result == Returned(EnabledRules(resp.body.value.pluggableObjects, projectId, wf))
  {
    Call(RulesFromResponse(s.app(AppUrl(c, wf.id)), projectId, wf), [DetailRequest(c, wf)])
  }

  /** One fan-out task: the rules of one workflow, or the exception it raised. */
  function Task(c: Credentials, s: Server, projectId: string): Workflow -> Outcome<seq<WorkflowRule>> {
    wf => EnabledRulesForWorkflow(c, s, projectId, wf).result
  }

  /** The detail requests of the fan-out, one per workflow, in discovery order. */
  function DetailRequests(c: Credentials, wfs: seq<Workflow>): seq<Request> {
    seq(|wfs|, i requires 0 <= i < |wfs| => DetailRequest(c, wfs[i]))
  }

  /**
    `getEnabledRulesForProject`. An empty discovery returns no rules after
    the listing request alone. Otherwise every discovered workflow is
    fetched once, in discovery order, and the result is the concatenation of
    their rule lists in that order, a failing workflow contributing nothing.
    Only a transport failure of the listing itself escapes.
   */
  function EnabledRulesForProject(c: Credentials, s: Server, projectId: string): (r: Call<seq<WorkflowRule>>)
    ensures r.result.Threw? <==> s.workflows(WorkflowsUrl(c, projectId)).TransportFailure?
    ensures ProjectWorkflows(c, s, projectId).result == Returned([]) ==>
      r == Call(Returned([]), [ListingRequest(c, projectId)])
    ensures
      var listing := ProjectWorkflows(c, s, projectId).result;
      listing.Returned? && |listing.value| > 0 ==>
        && r.requests == [ListingRequest(c, projectId)] + DetailRequests(c, listing.value)
        && r.result == Returned(Gather(listing.value, Task(c, s, projectId)))
  {
    var listing := ProjectWorkflows(c, s, projectId);
    match listing.result
    case Threw => Call(Threw, listing.requests)
    case Returned(wfs) =>
      if |wfs| == 0 then Call(Returned([]), listing.requests)
      else Call(Returned(Gather(wfs, Task(c, s, projectId))), listing.requests + DetailRequests(c, wfs))
  }

  /**
    Failure isolation end to end: whenever discovery succeeds, every rule
    enabled for the project in a workflow whose detail decodes is in the
    result, whatever the other workflows' requests did.
   */
  lemma EnabledRulesForProjectKeepsEveryDecodedWorkflow(c: Credentials, s: Server, projectId: string)
    requires ProjectWorkflows(c, s, projectId).result.Returned?
    ensures
      var wfs := ProjectWorkflows(c, s, projectId).result.value;
      forall i, j :: 0 <= i < |wfs| ==>
        var resp := s.app(AppUrl(c, wfs[i].id));
        resp.Response? && IsSuccess(resp.status) && resp.body.Decoded? &&
        0 <= j < |resp.body.value.pluggableObjects| &&
        EnabledForProject(resp.body.value.pluggableObjects[j], projectId) ==>
          EnabledRulesForProject(c, s, projectId).result.Returned? &&
          ToRule(resp.body.value.pluggableObjects[j], wfs[i]) in EnabledRulesForProject(c, s, projectId).result.value
  {
    var wfs := ProjectWorkflows(c, s, projectId).result.value;
    var task := Task(c, s, projectId);
    GatherKeepsSucceeding(wfs, task);
    forall i, j | 0 <= i < |wfs| &&
      var resp := s.app(AppUrl(c, wfs[i].id));
      resp.Response? && IsSuccess(resp.status) && resp.body.Decoded? &&
      0 <= j < |resp.body.value.pluggableObjects| &&
      EnabledForProject(resp.body.value.pluggableObjects[j], projectId)
      ensures ToRule(s.app(AppUrl(c, wfs[i].id)).body.value.pluggableObjects[j], wfs[i]) in
        EnabledRulesForProject(c, s, projectId).result.value
    {
      var pos := s.app(AppUrl(c, wfs[i].id)).body.value.pluggableObjects;
      EnabledRulesIff(pos, projectId, wfs[i]);
      assert task(wfs[i]) == Returned(EnabledRules(pos, projectId, wfs[i]));
    }
  }

  /**
    The converse: every rule in the project result is the rule of a
    pluggable object enabled for the project, in a discovered workflow whose
    detail reply was a success that decoded.
   */
  lemma EnabledRulesForProjectOnlyEnabledRules(c: Credentials, s: Server, projectId: string, x: WorkflowRule)
    requires EnabledRulesForProject(c, s, projectId).result.Returned?
    requires x in EnabledRulesForProject(c, s, projectId).result.value
    ensures ProjectWorkflows(c, s, projectId).result.Returned?
    ensures
      var wfs := ProjectWorkflows(c, s, projectId).result.value;
      exists i, j :: 0 <= i < |wfs| &&
        var resp := s.app(AppUrl(c, wfs[i].id));
        && resp.Response? && IsSuccess(resp.status) && resp.body.Decoded?
        && 0 <= j < |resp.body.value.pluggableObjects|
        && EnabledForProject(resp.body.value.pluggableObjects[j], projectId)
        && x == ToRule(resp.body.value.pluggableObjects[j], wfs[i])
  {
    var wfs := ProjectWorkflows(c, s, projectId).result.value;
    var task := Task(c, s, projectId);
    GatherOnlyFromSucceeding(wfs, task, x);
    var i :| 0 <= i < |wfs| && task(wfs[i]).Returned? && x in task(wfs[i]).value;
    var resp := s.app(AppUrl(c, wfs[i].id));
    assert resp.Response? && IsSuccess(resp.status) && resp.body.Decoded?;
    var pos := resp.body.value.pluggableObjects;
    var rules := EnabledRules(pos, projectId, wfs[i]);
    assert task(wfs[i]) == Returned(rules);
    EnabledRulesIff(pos, projectId, wfs[i]);
    var k :| 0 <= k < |rules| && rules[k] == x;
    var j :| 0 <= j < |pos| && EnabledForProject(pos[j], projectId) && rules[k] == ToRule(pos[j], wfs[i]);
  }

  /**
    Discovery order decides the result order: the rules of the workflow at
    position `i` sit between those of the earlier and the later workflows.
   */
  lemma EnabledRulesForProjectInDiscoveryOrder(c: Credentials, s: Server, projectId: string, i: nat)
    requires ProjectWorkflows(c, s, projectId).result.Returned?
    requires i < |ProjectWorkflows(c, s, projectId).result.value|
    ensures
      var wfs := ProjectWorkflows(c, s, projectId).result.value;
      var task := Task(c, s, projectId);
      EnabledRulesForProject(c, s, projectId).result ==
        Returned(Gather(wfs[..i], task) + Absorb(task(wfs[i])) + Gather(wfs[i + 1..], task))
  {
    var wfs := ProjectWorkflows(c, s, projectId).result.value;
    GatherSplit(wfs, Task(c, s, projectId), i);
  }
}
