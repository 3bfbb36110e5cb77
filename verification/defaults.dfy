/**
  What the default field values of the data model mean for the outcome: a
  field the server leaves out of a usage, a pluggable object or a workflow
  detail never turns a rule on.
 */
module Defaults {
  import opened Wrappers
  import opened Http
  import opened DataModels
  import opened Seqs
  import opened Shaping

  /** A usage whose `enabled` was left out is disabled and enables nothing. */
  lemma UsageWithoutEnabledEnablesNothing(c: Option<Configuration>, projectId: string)
    ensures !Usage(configuration := c).enabled
    ensures !UsageEnables(Usage(configuration := c), projectId)
  {
  }

  /** A usage without a configuration, or whose configuration has no project, matches no project. */
  lemma UnboundUsageMatchesNothing(enabled: bool, projectId: string)
    ensures ShortNameMatch(Usage(enabled := enabled), projectId).None?
    ensures ShortNameMatch(Usage(enabled := enabled, configuration := Some(Configuration())), projectId).None?
    ensures !UsageEnables(Usage(enabled := enabled), projectId)
    ensures !UsageEnables(Usage(enabled := enabled, configuration := Some(Configuration())), projectId)
  {
  }

  /** A pluggable object whose `usages` were left out is enabled for no project. */
  lemma ObjectWithoutUsagesIsNeverEnabled(id: string, name: string, description: Option<string>, script: Option<Script>, projectId: string)
    ensures PluggableObject(id, name, description, script).usages == []
    ensures !EnabledForProject(PluggableObject(id, name, description, script), projectId)
  {
  }

  /** A detail whose `pluggableObjects` were left out yields no rules, also through a successful response. */
  lemma AppWithoutObjectsYieldsNoRules(status: int, projectId: string, wf: Workflow)
    requires Http.IsSuccess(status)
    ensures EnabledRules(AppDetails().pluggableObjects, projectId, wf) == []
    ensures RulesFromResponse(Response(status, Decoded(AppDetails())), projectId, wf) == Returned([])
  {
  }

  /** If no usage of any pluggable object has `enabled` set, the workflow yields no rules. */
  lemma {:induction false} NoEnabledUsageYieldsNoRules(pos: seq<PluggableObject>, projectId: string, wf: Workflow)
    requires forall i, j :: 0 <= i < |pos| && 0 <= j < |pos[i].usages| ==> !pos[i].usages[j].enabled
    ensures EnabledRules(pos, projectId, wf) == []
    decreases |pos|
  {
    if |pos| > 0 {
      var n := |pos| - 1;
      NoEnabledUsageYieldsNoRules(pos[..n], projectId, wf);
      assert !EnabledForProject(pos[n], projectId);
    }
  }

  /** A rule built without description or script carries neither. */
  lemma RuleOptionalFieldsDefaultToAbsent(ruleId: string, ruleName: string, workflowId: string, workflowName: string)
    ensures WorkflowRule(ruleId := ruleId, ruleName := ruleName, workflowId := workflowId, workflowName := workflowName).ruleDescription.None?
    ensures WorkflowRule(ruleId := ruleId, ruleName := ruleName, workflowId := workflowId, workflowName := workflowName).ruleScript.None?
  {
  }

  /** A listing entry whose `workflow` was left out is legal and drops out of the unwrapped list. */
  lemma EntryWithoutWorkflowIsDropped(a: seq<WorkflowUsageResponse>, b: seq<WorkflowUsageResponse>)
    ensures WorkflowUsageResponse().workflow.None?
    ensures PresentWorkflows(a + [WorkflowUsageResponse()] + b) == PresentWorkflows(a) + PresentWorkflows(b)
  {
    FilterMapAppend(a + [WorkflowUsageResponse()], b, WorkflowOf);
    FilterMapAppend(a, [WorkflowUsageResponse()], WorkflowOf);
    assert FilterMap([WorkflowUsageResponse()], WorkflowOf) == [];
  }
}
