/**
  One investigation worked through the tool set: project `DEMO` has two
  workflows. `A` holds rule `R1`, enabled and bound to `DEMO`. `B` holds rule
  `R2`, enabled only for `OTHER` and bound to `DEMO` by a disabled usage.
  Only `R1` comes back, carrying `A` as its workflow.
 */
module Scenario {
  import opened Wrappers
  import opened Http
  import opened DataModels
  import opened Shaping
  import opened Endpoints
  import opened FanOut
  import ToolSet

  const Creds := Credentials("demo.youtrack.cloud", "token")
  const A := Workflow("A", "Alpha")
  const B := Workflow("B", "Beta")

  function Bound(enabled: bool, shortName: string): Usage {
    Usage(enabled, Some(Configuration(Some(ProjectShort(shortName)))))
  }

  const R1 := PluggableObject("R1", "R1", usages := [Bound(true, "DEMO")])
  const R2 := PluggableObject("R2", "R2", usages := [Bound(true, "OTHER"), Bound(false, "DEMO")])

  /** Both workflows are listed (plus an entry without one); each detail holds its single rule. */
  function DemoServer(): Server {
    Server(
      _ => TransportFailure,
      _ => TransportFailure,
      _ => Response(200, Decoded([WorkflowUsageResponse(Some(A)), WorkflowUsageResponse(), WorkflowUsageResponse(Some(B))])),
      url => Response(200, Decoded(AppDetails(if url == ToolSet.AppUrl(Creds, A.id) then [R1] else [R2]))))
  }

  lemma DemoListing(p: string)
    ensures ToolSet.ProjectWorkflows(Creds, DemoServer(), p).result == Returned([A, B])
  {
    var us := [WorkflowUsageResponse(Some(A)), WorkflowUsageResponse(), WorkflowUsageResponse(Some(B))];
    assert us[..2][..1] == [WorkflowUsageResponse(Some(A))];
    assert us[..2] == [WorkflowUsageResponse(Some(A)), WorkflowUsageResponse()];
    assert PresentWorkflows(us[..2][..1]) == [A];
    assert PresentWorkflows(us[..2]) == [A];
    assert PresentWorkflows(us) == [A, B];
  }

  lemma DemoMatching(p: string)
    requires p == "DEMO" || p == "demo"
    ensures EnabledForProject(R1, p)
    ensures !EnabledForProject(R2, p)
  {
  }

  lemma DemoTasks(p: string)
    requires p == "DEMO" || p == "demo"
    ensures ToolSet.Task(Creds, DemoServer(), p)(A) == Returned([ToRule(R1, A)])
    ensures ToolSet.Task(Creds, DemoServer(), p)(B) == Returned([])
  {
    DemoMatching(p);
    DetailUrlsDistinct(Creds.domain, B.id, A.id);
    assert EnabledRules([R1], p, A) == [ToRule(R1, A)];
    assert EnabledRules([R2], p, B) == [];
  }

  /** The investigation returns R1 alone, for the project id in either case. */
  lemma DemoInvestigation(p: string)
    requires p == "DEMO" || p == "demo"
    ensures ToolSet.EnabledRulesForProject(Creds, DemoServer(), p).result == Returned([ToRule(R1, A)])
  {
    var s := DemoServer();
    DemoListing(p);
    DemoTasks(p);
    var task := ToolSet.Task(Creds, s, p);
    GatherSplit([A, B], task, 1);
    assert [A, B][..1] == [A] && [A, B][2..] == [];
    GatherOne(A, task);
    assert Gather([], task) == [];
    assert Gather([A, B], task) == [ToRule(R1, A)];
    assert ToolSet.EnabledRulesForProject(Creds, s, p).result == Returned(Gather([A, B], task));
  }

  /** Each of R2's grounds for exclusion suffices on its own. */
  lemma EitherGroundExcludes(wf: Workflow)
    ensures EnabledRules([PluggableObject("R2", "R2", usages := [Bound(true, "OTHER")])], "DEMO", wf) == []
    ensures EnabledRules([PluggableObject("R2", "R2", usages := [Bound(false, "DEMO")])], "DEMO", wf) == []
  {
  }
}
