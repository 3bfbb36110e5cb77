/**
  The top-level tool functions of the agent entry point: the draft copy of
  the same three reads. Domain and token come from the environment and may
  be missing; a Kotlin string template renders a missing value as `null`.
  The draft's HTTP client is built without the JSON content-negotiation
  plugin, so `response.body()` cannot produce any of the typed results: every
  success status ends in an exception, and only the non-success paths
  return normally.
 */
module Agent {
  import opened Wrappers
  import opened Http
  import opened DataModels
  import opened Shaping
  import opened Endpoints

  /** The `DOMAIN` and `YOUTRACK_TOKEN` environment variables, either possibly unset. */
  datatype Environment = Environment(domain: Option<string>, token: Option<string>)

  /** `"$x"` for a nullable string `x`. */
  function Template(x: Option<string>): (r: string)
    ensures x.Some? ==> r == x.value
    ensures x.None? ==> r == "null"
  {
    match x
    case Some(v) => v
    case None => "null"
  }

  /**
    The reply as the draft's client sees it: with no JSON plugin installed,
    no body of a typed read can be decoded.
   */
  function WithoutJsonPlugin<T>(resp: Response<T>): (r: Response<T>)
    ensures r.TransportFailure? <==> resp.TransportFailure?
    ensures r.Response? ==> r.status == resp.status && r.body.Malformed?
  {
    match resp
    case TransportFailure => TransportFailure
    case Response(status, _) => Response(status, Malformed)
  }

  function Authorization(e: Environment): string {
    Bearer(Template(e.token))
  }

  function ProjectUrl(e: Environment, projectId: string): string {
    Template(e.domain) + ProjectPath(projectId) + ProjectFields
  }

  function WorkflowsUrl(e: Environment, projectId: string): string {
    Template(e.domain) + WorkflowsPath(projectId) + WorkflowFields
  }

  /** The detail URL: the domain, `/api/admin/apps/`, the workflow id, the field selection. */
  function AppUrl(e: Environment, workflowId: string): (r: string)
    ensures r == Template(e.domain) + "/api/admin/apps/" + workflowId + AppFields
    ensures e.domain.Some? ==> r[..|e.domain.value|] == e.domain.value
  {
    Template(e.domain) + AppPath(workflowId) + AppFields
  }

  /**
    `validateProject`: null on a non-success status. On a success the body
    cannot be decoded into a `Project`, so the call throws; it never
    returns a project.
   */
  function ValidateProject(e: Environment, s: Server, projectId: string): (r: Call<Option<Project>>)
    ensures r.requests == [Get(ProjectUrl(e, projectId), Authorization(e))]
    ensures
      var resp := s.project(ProjectUrl(e, projectId));
      r.result.Threw? <==> resp.TransportFailure? || IsSuccess(resp.status)
    ensures
      var resp := s.project(ProjectUrl(e, projectId));
      resp.Response? && !IsSuccess(resp.status) ==> r.result == Returned(None)
    ensures r.result != Returned(None) ==> r.result.Threw?
  {
    var url := ProjectUrl(e, projectId);
    var result :=
      match WithoutJsonPlugin(s.project(url))
      case TransportFailure => Threw
      case Response(status, body) =>
        if !IsSuccess(status) then Returned(None)
        else
          match BodyOf(body)
          case Threw => Threw
          case Returned(p) => Returned(Some(p));
    Call(result, [Get(url, Authorization(e))])
  }

  /**
    `getProjectWorkflows`: no workflows on a non-success status. On a
    success the listing cannot be decoded, and the draft does not catch
    that, so the call throws; it never returns a workflow.
   */
  function ProjectWorkflows(e: Environment, s: Server, projectId: string): (r: Call<seq<Workflow>>)
    ensures r.requests == [Get(WorkflowsUrl(e, projectId), Authorization(e))]
    ensures
      var resp := s.workflows(WorkflowsUrl(e, projectId));
      r.result.Threw? <==> resp.TransportFailure? || IsSuccess(resp.status)
    ensures
      var resp := s.workflows(WorkflowsUrl(e, projectId));
      resp.Response? && !IsSuccess(resp.status) ==> r.result == Returned([])
    ensures r.result.Returned? ==> r.result.value == []
  {
    var url := WorkflowsUrl(e, projectId);
    Call(WorkflowsFromResponse(WithoutJsonPlugin(s.workflows(url))), [Get(url, Authorization(e))])
  }

  /**
    `getEnabledRulesForWorkflow`: no rules on a non-success status. On a
    success the detail cannot be decoded, so the call throws; the filter
    after it is never reached.
   */
  function EnabledRulesForWorkflow(e: Environment, s: Server, projectId: string, wf: Workflow): (r: Call<seq<WorkflowRule>>)
    ensures r.requests == [Get(AppUrl(e, wf.id), Authorization(e))]
    ensures
      var resp := s.app(AppUrl(e, wf.id));
      r.result.Threw? <==> resp.TransportFailure? || IsSuccess(resp.status)
    ensures
      var resp := s.app(AppUrl(e, wf.id));
      resp.Response? && !IsSuccess(resp.status) ==> r.result == Returned([])
    ensures r.result.Returned? ==> r.result.value == []
  {
    var url := AppUrl(e, wf.id);
    Call(RulesFromResponse(WithoutJsonPlugin(s.app(url)), projectId, wf), [Get(url, Authorization(e))])
  }
}
