/**
  The three admin API resources the tools read, their field selections, the
  bearer header, and the remote server as seen by the tools: for each
  resource, what a GET of a given URL produces.
 */
module Endpoints {
  import opened Http
  import opened DataModels

  const ProjectFields: string := "?fields=id,name"
  const WorkflowFields: string := "?fields=workflow(id,name)"
  const AppFields: string :=
    "?fields=pluggableObjects(id,name,description,script(id,script),usages(enabled,configuration(project(shortName))))"

  function ProjectPath(projectId: string): string {
    "/api/admin/projects/" + projectId
  }

  function WorkflowsPath(projectId: string): string {
    "/api/admin/projects/" + projectId + "/workflows"
  }

  function AppPath(workflowId: string): string {
    "/api/admin/apps/" + workflowId
  }

  /** The value of the `Authorization` header. */
  function Bearer(token: string): string {
    "Bearer " + token
  }

  /**
    The remote side, one reply per URL and per decoded type. The project
    lookup is read as raw text by the tool set and as a `Project` by the
    other copies, hence two entries for the same resource.
   */
  datatype Server = Server(
    projectText: string -> Response<string>,
    project: string -> Response<Project>,
    workflows: string -> Response<seq<WorkflowUsageResponse>>,
    app: string -> Response<AppDetails>)

  /** The configured domain and token. */
  datatype Credentials = Credentials(domain: string, token: string)

  /** `prefix + x + suffix` determines `x`. */
  lemma Uncat(prefix: string, x: string, y: string, suffix: string)
    requires prefix + x + suffix == prefix + y + suffix
    ensures x == y
  {
    var s := prefix + x + suffix;
    assert |x| == |y|;
    assert x == s[|prefix|..|prefix| + |x|];
    assert y == (prefix + y + suffix)[|prefix|..|prefix| + |y|];
  }

  /** Distinct workflows are fetched from distinct detail URLs, whatever the prefix. */
  lemma DetailUrlsDistinct(prefix: string, a: string, b: string)
    requires a != b
    ensures prefix + AppPath(a) + AppFields != prefix + AppPath(b) + AppFields
  {
    if prefix + AppPath(a) + AppFields == prefix + AppPath(b) + AppFields {
      assert prefix + AppPath(a) + AppFields == (prefix + "/api/admin/apps/") + a + AppFields;
      assert prefix + AppPath(b) + AppFields == (prefix + "/api/admin/apps/") + b + AppFields;
      Uncat(prefix + "/api/admin/apps/", a, b, AppFields);
    }
  }
}
