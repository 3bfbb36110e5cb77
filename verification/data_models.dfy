/**
  The serializable records of the YouTrack admin API as the tools see them.
  Every Kotlin nullable field is an `Option`, and every Kotlin default value is
  a default parameter of the constructor, so `Usage()` is the usage decoded
  from an object that carries neither `enabled` nor `configuration`.
 */
module DataModels {
  import opened Wrappers

  /** One rule enabled for the queried project, with its parent workflow. */
  datatype WorkflowRule = WorkflowRule(
    ruleId: string,
    ruleName: string,
    ruleDescription: Option<string> := None,
    ruleScript: Option<string> := None,
    workflowId: string,
    workflowName: string
  )

  datatype Project = Project(id: string, name: string)

  datatype Workflow = Workflow(id: string, name: string)

  /** One entry of the per-project workflow listing; the workflow may be missing. */
  datatype WorkflowUsageResponse = WorkflowUsageResponse(workflow: Option<Workflow> := None)

  /** The detail of one workflow (a YouTrack "app"). */
  datatype AppDetails = AppDetails(pluggableObjects: seq<PluggableObject> := [])

  /** One rule of a workflow. */
  datatype PluggableObject = PluggableObject(
    id: string,
    name: string,
    description: Option<string> := None,
    script: Option<Script> := None,
    usages: seq<Usage> := []
  )

  datatype Script = Script(id: string, script: Option<string> := None)

  /** The binding that switches a rule on or off for one project. */
  datatype Usage = Usage(enabled: bool := false, configuration: Option<Configuration> := None)

  datatype Configuration = Configuration(project: Option<ProjectShort> := None)

  datatype ProjectShort = ProjectShort(shortName: string)
}
