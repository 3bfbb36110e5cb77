/**
  How the three copies of the workflow reads relate. The client issues the
  tool set's requests with `https://` in front of the domain; given the same
  replies, the two agree on the detail read and differ on the listing only
  where the client lets an undecodable body escape. The top-level
  draft issues the same requests as the client (when its domain carries the
  scheme) or as the tool set (when it does not), but its HTTP client has no
  JSON decoder: it throws on every success. On the listing and detail reads
  it agrees with the other two on transport failures and non-success
  statuses. Its project lookup answers a non-success status with an absent
  project, where the tool set answers with its not-found message.
 */
module Copies {
  import opened Wrappers
  import opened Http
  import opened DataModels
  import opened Endpoints
  import ToolSet
  import Client
  import Agent

  /** Every client URL is the tool-set URL for the same domain, behind `https://`. */
  lemma ClientUrlsAreHttpsToolSetUrls(c: Credentials, projectId: string, workflowId: string)
    ensures Client.ProjectUrl(c, projectId) == "https://" + ToolSet.ProjectUrl(c, projectId)
    ensures Client.WorkflowsUrl(c, projectId) == "https://" + ToolSet.WorkflowsUrl(c, projectId)
    ensures Client.AppUrl(c, workflowId) == "https://" + ToolSet.AppUrl(c, workflowId)
  {
  }

  /**
    When the server answers the client's and the tool set's URLs alike, the
    two listings differ exactly on a success whose body does not decode:
    there the client throws and the tool set returns no workflows. Their
    detail reads always agree.
   */
  lemma ClientIsStrictToolSet(c: Credentials, s: Server, projectId: string, wf: Workflow)
    requires s.workflows(Client.WorkflowsUrl(c, projectId)) == s.workflows(ToolSet.WorkflowsUrl(c, projectId))
    requires s.app(Client.AppUrl(c, wf.id)) == s.app(ToolSet.AppUrl(c, wf.id))
    ensures
      var resp := s.workflows(ToolSet.WorkflowsUrl(c, projectId));
      Client.ProjectWorkflows(c, s, projectId).result != ToolSet.ProjectWorkflows(c, s, projectId).result
      <==> resp.Response? && IsSuccess(resp.status) && resp.body.Malformed?
    ensures
      Client.ProjectWorkflows(c, s, projectId).result != ToolSet.ProjectWorkflows(c, s, projectId).result ==>
        Client.ProjectWorkflows(c, s, projectId).result.Threw? &&
        ToolSet.ProjectWorkflows(c, s, projectId).result == Returned([])
    ensures Client.EnabledRulesForWorkflow(c, s, projectId, wf).result ==
      ToolSet.EnabledRulesForWorkflow(c, s, projectId, wf).result
  {
  }

  /**
    The draft with `https://` in its domain issues exactly the client's
    requests, and its results equal the client's except on a success whose
    body the client decodes: there the client returns and the draft throws.
   */
  lemma AgentIsClientWithoutDecoder(d: string, t: string, s: Server, projectId: string, wf: Workflow)
    ensures
      var e := Agent.Environment(Some("https://" + d), Some(t));
      && Agent.ValidateProject(e, s, projectId).requests == Client.ValidateProject(Credentials(d, t), s, projectId).requests
      && Agent.ProjectWorkflows(e, s, projectId).requests == Client.ProjectWorkflows(Credentials(d, t), s, projectId).requests
      && Agent.EnabledRulesForWorkflow(e, s, projectId, wf).requests ==
           Client.EnabledRulesForWorkflow(Credentials(d, t), s, projectId, wf).requests
    ensures
      var resp := s.project(Client.ProjectUrl(Credentials(d, t), projectId));
      Agent.ValidateProject(Agent.Environment(Some("https://" + d), Some(t)), s, projectId).result !=
        Client.ValidateProject(Credentials(d, t), s, projectId).result
      <==> resp.Response? && IsSuccess(resp.status) && resp.body.Decoded?
    ensures
      var resp := s.workflows(Client.WorkflowsUrl(Credentials(d, t), projectId));
      Agent.ProjectWorkflows(Agent.Environment(Some("https://" + d), Some(t)), s, projectId).result !=
        Client.ProjectWorkflows(Credentials(d, t), s, projectId).result
      <==> resp.Response? && IsSuccess(resp.status) && resp.body.Decoded?
    ensures
      var resp := s.app(Client.AppUrl(Credentials(d, t), wf.id));
      Agent.EnabledRulesForWorkflow(Agent.Environment(Some("https://" + d), Some(t)), s, projectId, wf).result !=
        Client.EnabledRulesForWorkflow(Credentials(d, t), s, projectId, wf).result
      <==> resp.Response? && IsSuccess(resp.status) && resp.body.Decoded?
  {
  }

  /**
    With both variables set, the draft issues the tool set's listing and
    detail requests. Its detail result differs from the tool set's exactly on
    a success whose body decodes; its listing result differs on every
    success, because the tool set never throws there and the draft always
    does. The project lookups send the same request; on a non-success status
    the draft returns an absent project and the tool set its not-found
    message, and on a transport failure both throw.
   */
  lemma AgentIsToolSetWithoutDecoder(d: string, t: string, s: Server, projectId: string, wf: Workflow)
    ensures Agent.ProjectWorkflows(Agent.Environment(Some(d), Some(t)), s, projectId).requests ==
      ToolSet.ProjectWorkflows(Credentials(d, t), s, projectId).requests
    ensures Agent.EnabledRulesForWorkflow(Agent.Environment(Some(d), Some(t)), s, projectId, wf).requests ==
      ToolSet.EnabledRulesForWorkflow(Credentials(d, t), s, projectId, wf).requests
    ensures
      var resp := s.workflows(ToolSet.WorkflowsUrl(Credentials(d, t), projectId));
      Agent.ProjectWorkflows(Agent.Environment(Some(d), Some(t)), s, projectId).result !=
        ToolSet.ProjectWorkflows(Credentials(d, t), s, projectId).result
      <==> resp.Response? && IsSuccess(resp.status)
    ensures
      var resp := s.app(ToolSet.AppUrl(Credentials(d, t), wf.id));
      Agent.EnabledRulesForWorkflow(Agent.Environment(Some(d), Some(t)), s, projectId, wf).result !=
        ToolSet.EnabledRulesForWorkflow(Credentials(d, t), s, projectId, wf).result
      <==> resp.Response? && IsSuccess(resp.status) && resp.body.Decoded?
    ensures Agent.ValidateProject(Agent.Environment(Some(d), Some(t)), s, projectId).requests ==
      ToolSet.ValidateProject(Credentials(d, t), s, projectId).requests
    ensures
      var url := ToolSet.ProjectUrl(Credentials(d, t), projectId);
      s.project(url).Response? && !IsSuccess(s.project(url).status) &&
      s.projectText(url).Response? && !IsSuccess(s.projectText(url).status) ==>
        && Agent.ValidateProject(Agent.Environment(Some(d), Some(t)), s, projectId).result == Returned(None)
        && ToolSet.ValidateProject(Credentials(d, t), s, projectId).result == Returned(ToolSet.NotFoundMessage(projectId))
    ensures
      var url := ToolSet.ProjectUrl(Credentials(d, t), projectId);
      s.project(url).TransportFailure? && s.projectText(url).TransportFailure? ==>
        && Agent.ValidateProject(Agent.Environment(Some(d), Some(t)), s, projectId).result.Threw?
        && ToolSet.ValidateProject(Credentials(d, t), s, projectId).result.Threw?
  {
  }

  /** With `DOMAIN` unset, the draft's requests go to URLs that start with `null/api/admin/`. */
  lemma AgentWithoutDomain(t: Option<string>, projectId: string, workflowId: string)
    ensures Agent.WorkflowsUrl(Agent.Environment(None, t), projectId)[..15] == "null/api/admin/"
    ensures Agent.AppUrl(Agent.Environment(None, t), workflowId)[..15] == "null/api/admin/"
  {
    var e := Agent.Environment(None, t);
    var w := "projects/" + projectId + "/workflows" + WorkflowFields;
    var a := "apps/" + workflowId + AppFields;
    assert Agent.WorkflowsUrl(e, projectId) == "null/api/admin/" + w;
    assert Agent.AppUrl(e, workflowId) == "null/api/admin/" + a;
    assert ("null/api/admin/" + w)[..15] == "null/api/admin/";
    assert ("null/api/admin/" + a)[..15] == "null/api/admin/";
  }
}
