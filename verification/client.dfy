/**
  `YouTrackClient`: the same three reads as the tool set, with the scheme
  `https://` put in front of the configured domain. Neither the listing nor
  the detail catches a decoding failure.
 */
module Client {
  import opened Wrappers
  import opened Http
  import opened DataModels
  import opened Shaping
  import opened Endpoints

  /** `baseUrl(path)`: the scheme, then the domain, then the path. */
  function BaseUrl(c: Credentials, path: string): (r: string)
    ensures |r| == 8 + |c.domain| + |path|
    ensures r[..8] == "https://"
    ensures r[8..8 + |c.domain|] == c.domain
    ensures r[8 + |c.domain|..] == path
  {
    "https://" + c.domain + path
  }

  function ProjectUrl(c: Credentials, projectId: string): string {
    BaseUrl(c, ProjectPath(projectId)) + ProjectFields
  }

  function WorkflowsUrl(c: Credentials, projectId: string): string {
    BaseUrl(c, WorkflowsPath(projectId)) + WorkflowFields
  }

  function AppUrl(c: Credentials, workflowId: string): string {
    BaseUrl(c, AppPath(workflowId)) + AppFields
  }

  /** `validateProject`: the decoded project on success, absent (not an error) otherwise. */
  function ValidateProject(c: Credentials, s: Server, projectId: string): (r: Call<Option<Project>>)
    ensures r.requests == [Get(ProjectUrl(c, projectId), Bearer(c.token))]
    ensures
      var resp := s.project(ProjectUrl(c, projectId));
      r.result.Threw? <==> resp.TransportFailure? || (IsSuccess(resp.status) && resp.body.Malformed?)
    ensures
      var resp := s.project(ProjectUrl(c, projectId));
      resp.Response? && !IsSuccess(resp.status) ==> r.result == Returned(None)
    ensures
      var resp := s.project(ProjectUrl(c, projectId));
      resp.Response? && IsSuccess(resp.status) && resp.body.Decoded? ==> r.result == Returned(Some(resp.body.value))
  {
    var url := ProjectUrl(c, projectId);
    var result :=
      match s.project(url)
      case TransportFailure => Threw
      case Response(status, body) =>
        if !IsSuccess(status) then Returned(None)
        else
          match BodyOf(body)
          case Threw => Threw
          case Returned(p) => Returned(Some(p));
    Call(result, [Get(url, Bearer(c.token))])
  }

  /** `getProjectWorkflows`: no workflows on a non-success status; an undecodable body throws. */
  function ProjectWorkflows(c: Credentials, s: Server, projectId: string): (r: Call<seq<Workflow>>)
    ensures r.requests == [Get(WorkflowsUrl(c, projectId), Bearer(c.token))]
    ensures
      var resp := s.workflows(WorkflowsUrl(c, projectId));
      r.result.Threw? <==> resp.TransportFailure? || (IsSuccess(resp.status) && resp.body.Malformed?)
    ensures
      var resp := s.workflows(WorkflowsUrl(c, projectId));
      resp.Response? && !IsSuccess(resp.status) ==> r.result == Returned([])
    ensures
      var resp := s.workflows(WorkflowsUrl(c, projectId));
      resp.Response? && IsSuccess(resp.status) && resp.body.Decoded? ==>
        r.result == Returned(PresentWorkflows(resp.body.value))
  {
    var url := WorkflowsUrl(c, projectId);
    Call(WorkflowsFromResponse(s.workflows(url)), [Get(url, Bearer(c.token))])
  }

  /** `getEnabledRulesForWorkflow`: as in the tool set, against the `https://` URL. */
  function EnabledRulesForWorkflow(c: Credentials, s: Server, projectId: string, wf: Workflow): (r: Call<seq<WorkflowRule>>)
    ensures r.requests == [Get(AppUrl(c, wf.id), Bearer(c.token))]
    ensures
      var resp := s.app(AppUrl(c, wf.id));
      r.result.Threw? <==> resp.TransportFailure? || (IsSuccess(resp.status) && resp.body.Malformed?)
    ensures
      var resp := s.app(AppUrl(c, wf.id));
      resp.Response? && !IsSuccess(resp.status) ==> r.result == Returned([])
    ensures
      var resp := s.app(AppUrl(c, wf.id));
      resp.Response? && IsSuccess(resp.status) && resp.body.Decoded? ==>
        r.result == Returned(EnabledRules(resp.body.value.pluggableObjects, projectId, wf))
  {
    var url := AppUrl(c, wf.id);
    Call(RulesFromResponse(s.app(url), projectId, wf), [Get(url, Bearer(c.token))])
  }
}
