# YouTrack workflow tools — a Dafny model of the investigation core

The workflow agent helps with YouTrack automation rules. Given a project id, it finds which workflow rules are enabled for that project:

1. It validates the project.
2. It lists the workflows attached to the project (the `workflows` admin resource, unwrapped from its usage entries).
3. For each workflow, it fetches the app detail (`/api/admin/apps/{id}`).
4. It keeps the pluggable objects (rules) that have a usage which is `enabled` and bound to the project's short name, ignoring case. Each kept rule becomes a `WorkflowRule` carrying the parent workflow's id and name.

The tool set also fans step 3 out concurrently over all discovered workflows. A failing workflow contributes nothing, and the results are joined in discovery order.

The same reads exist three times in the repository:

- the `YouTrackToolSet` tool set;
- the `YouTrackClient` class;
- the top-level draft functions of the agent entry point.

The model defines the shared filter and shaping once, in `Shaping`, on top of a generic order-preserving `mapNotNull` (`Seqs.FilterMap`). Each copy is a module (`ToolSet`, `Client`, `Agent`) that builds its URLs and maps the response through that shared shaping. The draft is the odd one out: its HTTP client is built without the JSON content-negotiation plugin (Agent.kt:46), so none of its typed reads can decode a body. In the model, every success reply to the draft throws (`Agent.WithoutJsonPlugin`). `Copies` states how the three relate. The client's URLs are the tool set's behind `https://`; given the same replies, the client's detail read agrees with the tool set's, and its listing differs exactly where it lets an undecodable body escape. The draft issues the same requests as each of the other two. On the listing and detail reads it agrees with them on transport failures and non-success statuses, and `Copies` names the exact cases where it differs. On the project lookup it answers a non-success status with an absent project, where the tool set answers with its not-found message.

How the outside world is modelled:

- **HTTP.** An HTTP exchange is an input: `Http.Response` is either `Response(status, body)` or `TransportFailure`, and the body is either `Decoded(value)` or `Malformed`. A `Server` maps each URL to the reply for it.
- **Exceptions.** A Kotlin exception, from a failed transport or from `response.body()` failing, is `Outcome.Threw`.
- **Request trace.** Every operation returns the GET requests it issued: URL and `Authorization` value. So "no per-workflow fetch when nothing is discovered" is a statement about that trace.
- **Concurrency.** The fan-out is an ordered map over the workflows, then a flatten. `FanOut.AwaitAll` models `awaitAll`: each task's result lands in its own slot, whatever the completion order.
- **Defaults.** Kotlin's default field values are Dafny constructor defaults. For example, `Usage()` is a usage with `enabled = false` and no configuration.

Behaviour of the code worth noting:

- **Listing decode failure.** In the client and the top-level draft, a listing body that does not decode throws; it does not give an empty list. Only the tool set catches it (YouTrackTools.kt:73-77, 89-93).
- **Detail decode failure.** A detail body that does not decode throws in all three copies (YouTrackTools.kt:111). Only the per-project fan-out absorbs it, through `runCatching`.
- **Listing transport failure.** If the listing request inside `getEnabledRulesForProject` fails in transport, the exception escapes the aggregation. It is not turned into an empty result.
- **No decoder in the draft.** The top-level draft's client has no JSON plugin. So its `validateProject`, `getProjectWorkflows` and `getEnabledRulesForWorkflow` throw on every success status, and they return normally only on a non-success status.
- **Project lookup in the tool set.** The tool set's `validateProject` returns a "does not exist" message on a non-success status, not an absent value.

## Model

| member | source | states |
|---|---|---|
| Http.BodyOf | app/src/main/kotlin/org/example/tools/YouTrackTools.kt:111 | `response.body()` returns the decoded value exactly when the body decodes, and throws otherwise |
| Seqs.FilterMap | app/src/main/kotlin/org/example/tools/YouTrackTools.kt:94 | `mapNotNull` never yields more elements than its input |
| Seqs.FilterMapMembers | app/src/main/kotlin/org/example/tools/YouTrackTools.kt:94 | every kept value is the present image of some input element, and every present image is kept |
| Seqs.KeptIndicesExact | app/src/main/kotlin/org/example/tools/YouTrackTools.kt:112-128 | the kept positions are strictly increasing, in range, and exactly the positions where the selector is present |
| Seqs.KeptIndicesValues | app/src/main/kotlin/org/example/tools/YouTrackTools.kt:112-128 | the k-th kept value comes from the k-th kept position, so the output is an order-preserving subsequence |
| Seqs.FilterMapAppend | app/src/main/kotlin/org/example/tools/YouTrackTools.kt:112-128 | filtering a concatenation is the concatenation of the filterings |
| Seqs.FlattenAppend | app/src/main/kotlin/org/example/tools/YouTrackTools.kt:146 | flattening a concatenation of parts concatenates the flattenings, in order |
| CaseFold.CharEqualsIgnoreCaseIff | app/src/main/kotlin/org/example/tools/YouTrackTools.kt:115 | two characters are equal ignoring case (equal, upper forms equal, or lower-of-upper forms equal) iff their ASCII small forms agree |
| CaseFold.EqualsIgnoreCaseIff | app/src/main/kotlin/org/example/tools/YouTrackTools.kt:115 | two strings are equal ignoring case iff their ASCII lower-cased forms are equal |
| CaseFold.EqualsIgnoreCaseIsEquivalence | app/src/main/kotlin/org/example/tools/YouTrackTools.kt:115 | case-insensitive equality is reflexive, symmetric and transitive |
| Shaping.UsageEnablesIff | app/src/main/kotlin/org/example/tools/YouTrackTools.kt:115 | the null-safe chain compared with `true` holds iff the usage is enabled and has a configuration with a project whose short name matches ignoring case |
| Shaping.AnyUsageEnables | app/src/main/kotlin/org/example/tools/YouTrackTools.kt:114-116 | `any` over the usages is true iff some usage enables the rule for the project |
| Shaping.ScriptText | app/src/main/kotlin/org/example/tools/YouTrackTools.kt:122 | the rule script is present iff the script and its text are both present, and then it is that text |
| Shaping.ToRule | app/src/main/kotlin/org/example/tools/YouTrackTools.kt:118-125 | an emitted rule copies id, name and description from the pluggable object and the script text from its script, and takes the workflow's id and name |
| Shaping.EnabledRules | app/src/main/kotlin/org/example/tools/YouTrackTools.kt:112-128 | the workflow yields at most one rule per pluggable object |
| Shaping.EnabledRulesIff | app/src/main/kotlin/org/example/tools/YouTrackTools.kt:113-127 | the rule of every pluggable object enabled for the project is emitted; every emitted rule is the rule of an enabled pluggable object; every emitted rule carries the parent workflow's id and name |
| Shaping.EnabledRulesOrdered | app/src/main/kotlin/org/example/tools/YouTrackTools.kt:112-128 | the emitted rules are, in order, the rules of exactly the enabled pluggable objects (strictly increasing positions covering every enabled object) |
| Shaping.EnabledRulesAppend | app/src/main/kotlin/org/example/tools/YouTrackTools.kt:112-128 | filtering two runs of pluggable objects concatenates their rules; no rule is reordered across the boundary |
| Shaping.UsageEnablesUpToCase | app/src/main/kotlin/org/example/tools/YouTrackTools.kt:115 | whether a usage enables a rule does not change when the project id is replaced by a case-insensitively equal one |
| Shaping.EnabledRulesUpToCase | app/src/main/kotlin/org/example/tools/YouTrackTools.kt:112-128 | project ids that are equal ignoring case select exactly the same rules |
| Shaping.RulesFromResponse | app/src/main/kotlin/org/example/tools/YouTrackTools.kt:108-128 | a detail response gives no rules on a non-success status, throws on transport failure or an undecodable success, and otherwise gives the enabled rules of the decoded detail |
| Shaping.PresentWorkflows | app/src/main/kotlin/org/example/tools/YouTrackTools.kt:94 | unwrapping never yields more workflows than there are usage entries |
| Shaping.PresentWorkflowsSpec | app/src/main/kotlin/org/example/tools/YouTrackTools.kt:94 | every present workflow is kept; every kept workflow is the workflow of some entry; a listing with no workflows unwraps to nothing |
| Shaping.PresentWorkflowsAllPresent | app/src/main/kotlin/org/example/client/YouTrackClient.kt:43 | when every entry has a workflow, unwrapping keeps all of them in listing order |
| Shaping.WorkflowsFromResponse | app/src/main/kotlin/org/example/client/YouTrackClient.kt:41-43 | the strict listing gives no workflows on a non-success status, throws on transport failure or an undecodable success, and otherwise gives the present workflows |
| Shaping.WorkflowsFromResponseTolerant | app/src/main/kotlin/org/example/tools/YouTrackTools.kt:88-94 | the tolerant listing throws only on transport failure, gives no workflows on a non-success status or an undecodable body, and otherwise gives the present workflows |
| Shaping.ListingShapingsDiffer | app/src/main/kotlin/org/example/tools/YouTrackTools.kt:89-93 | the two listing behaviours differ exactly on a success whose body does not decode; there the strict one throws and the tolerant one returns an empty list |
| Shaping.CollectEnabledRules | app/src/main/kotlin/org/example/client/YouTrackClient.kt:54-70 | the loop that appends a rule for each enabled pluggable object computes exactly the filtered rule list |
| FanOut.GatherAppend | app/src/main/kotlin/org/example/tools/YouTrackTools.kt:140-146 | fanning out over two runs of workflows concatenates their results, in that order |
| FanOut.GatherOne | app/src/main/kotlin/org/example/tools/YouTrackTools.kt:142-143 | one task contributes its rules, or nothing if it threw |
| FanOut.GatherSplit | app/src/main/kotlin/org/example/tools/YouTrackTools.kt:140-146 | the result is the earlier tasks' results, then task i's result (nothing if it failed), then the later tasks' results |
| FanOut.GatherKeepsSucceeding | app/src/main/kotlin/org/example/tools/YouTrackTools.kt:140-146 | every rule of every task that did not fail is in the result, whatever the other tasks did |
| FanOut.GatherOnlyFromSucceeding | app/src/main/kotlin/org/example/tools/YouTrackTools.kt:140-146 | every value in the gathered result was produced by some task that did not fail; a failed task contributes nothing |
| FanOut.GatherAllFailed | app/src/main/kotlin/org/example/tools/YouTrackTools.kt:142-143 | when every task fails the result is the empty list, never an error |
| FanOut.Complete | app/src/main/kotlin/org/example/tools/YouTrackTools.kt:146 | after a sequence of completions, each slot holds its own task's result iff that task completed, and keeps its previous content otherwise |
| FanOut.AwaitAll | app/src/main/kotlin/org/example/tools/YouTrackTools.kt:146 | once all tasks have completed, in any order, the joined list is the results in task order |
| FanOut.GatherIgnoresCompletionOrder | app/src/main/kotlin/org/example/tools/YouTrackTools.kt:140-146 | the flattened result is the same for every completion order of the tasks |
| Endpoints.DetailUrlsDistinct | app/src/main/kotlin/org/example/tools/YouTrackTools.kt:104 | distinct workflow ids are fetched from distinct detail URLs |
| ToolSet.ValidateProject | app/src/main/kotlin/org/example/tools/YouTrackTools.kt:43-58 | one request to the project URL; the raw body on success; the "does not exist" message on a non-success status; throws only on transport or decode failure |
| ToolSet.ProjectWorkflows | app/src/main/kotlin/org/example/tools/YouTrackTools.kt:62-95 | one request to the listing URL; no workflows on a non-success status or an undecodable body; otherwise exactly the present workflows in order; throws only on transport failure |
| ToolSet.EnabledRulesForWorkflow | app/src/main/kotlin/org/example/tools/YouTrackTools.kt:99-129 | one request to the workflow's detail URL; no rules on a non-success status; throws on transport failure or an undecodable body; otherwise the enabled rules |
| ToolSet.EnabledRulesForProject | app/src/main/kotlin/org/example/tools/YouTrackTools.kt:133-147 | no workflows found gives no rules after the listing request alone; otherwise one detail request per workflow in discovery order and the ordered gathering of their absorbed results; throws only when the listing's transport fails |
| ToolSet.EnabledRulesForProjectKeepsEveryDecodedWorkflow | app/src/main/kotlin/org/example/tools/YouTrackTools.kt:140-146 | every rule enabled for the project in any workflow whose detail decodes is in the project result, whatever the other workflows returned |
| ToolSet.EnabledRulesForProjectOnlyEnabledRules | app/src/main/kotlin/org/example/tools/YouTrackTools.kt:140-146 | every rule in the project result is the rule, under its discovered workflow, of a pluggable object enabled for the project in a workflow whose detail reply was a decoded success |
| ToolSet.EnabledRulesForProjectInDiscoveryOrder | app/src/main/kotlin/org/example/tools/YouTrackTools.kt:140-146 | the rules of the workflow at position i sit between those of the earlier and the later workflows |
| Client.BaseUrl | app/src/main/kotlin/org/example/client/YouTrackClient.kt:26 | the URL is `https://`, then the domain, then the path, with nothing in between |
| Client.ValidateProject | app/src/main/kotlin/org/example/client/YouTrackClient.kt:28-34 | absent (not an error) on a non-success status; the decoded project on success; throws only on transport or decode failure |
| Client.ProjectWorkflows | app/src/main/kotlin/org/example/client/YouTrackClient.kt:36-44 | no workflows on a non-success status; the present workflows of a decoded listing in order; an undecodable listing throws |
| Client.EnabledRulesForWorkflow | app/src/main/kotlin/org/example/client/YouTrackClient.kt:46-71 | no rules on a non-success status; otherwise the enabled rules of the decoded detail, in order, with the parent workflow's id and name |
| Agent.Template | app/src/main/kotlin/org/example/Agent.kt:47-48 | a set variable is interpolated as itself and an unset one as `null` |
| Agent.AppUrl | app/src/main/kotlin/org/example/Agent.kt:77 | the detail URL is the domain, then `/api/admin/apps/`, then the workflow id, then the fixed field selection |
| Agent.WithoutJsonPlugin | app/src/main/kotlin/org/example/Agent.kt:46 | a reply seen by the draft's client keeps its status and transport outcome, but no typed body can be decoded |
| Agent.ValidateProject | app/src/main/kotlin/org/example/Agent.kt:52-60 | null on a non-success status; throws on every success or transport failure; never returns a project |
| Agent.ProjectWorkflows | app/src/main/kotlin/org/example/Agent.kt:64-72 | no workflows on a non-success status; throws on every success (no decoder, decode failure uncaught) or transport failure; never returns a workflow |
| Agent.EnabledRulesForWorkflow | app/src/main/kotlin/org/example/Agent.kt:76-100 | one request to the Agent.kt:77 URL; no rules on a non-success status; throws on every success or transport failure; never returns a rule |
| Copies.ClientUrlsAreHttpsToolSetUrls | app/src/main/kotlin/org/example/client/YouTrackClient.kt:26-48 | every client URL is the tool-set URL for the same domain with `https://` in front |
| Copies.ClientIsStrictToolSet | app/src/main/kotlin/org/example/client/YouTrackClient.kt:36-71 | when the server answers both copies' URLs alike, the client's listing differs from the tool set's exactly on a success whose body does not decode (the client throws, the tool set returns `[]`), and their detail reads give the same result |
| Copies.AgentIsClientWithoutDecoder | app/src/main/kotlin/org/example/Agent.kt:46-100 | the draft with `https://` in its domain issues the client's requests; each of its three results differs from the client's exactly when the reply is a success with a decodable body |
| Copies.AgentIsToolSetWithoutDecoder | app/src/main/kotlin/org/example/Agent.kt:46-100 | with both variables set, the draft issues the tool set's listing and detail requests; the listing results differ exactly on a success; the detail results differ exactly on a success with a decodable body; the project lookups send the same request, a non-success status gives the draft an absent project and the tool set its not-found message, and a transport failure makes both throw |
| Copies.AgentWithoutDomain | app/src/main/kotlin/org/example/Agent.kt:65 | with the domain unset, the draft's URLs begin with `null/api/admin/` |
| Defaults.UsageWithoutEnabledEnablesNothing | app/src/main/kotlin/org/example/model/DataModels.kt:54 | a usage without `enabled` is disabled and can never enable a rule |
| Defaults.UnboundUsageMatchesNothing | app/src/main/kotlin/org/example/model/DataModels.kt:55-61 | a usage without a configuration, or with a configuration without a project, matches no project |
| Defaults.ObjectWithoutUsagesIsNeverEnabled | app/src/main/kotlin/org/example/model/DataModels.kt:43 | a pluggable object without usages has an empty usage list and is enabled for no project |
| Defaults.AppWithoutObjectsYieldsNoRules | app/src/main/kotlin/org/example/model/DataModels.kt:34 | a detail without pluggable objects yields no rules, also through a successful response |
| Defaults.NoEnabledUsageYieldsNoRules | app/src/main/kotlin/org/example/model/DataModels.kt:54 | if no usage of any pluggable object is enabled, the workflow yields no rules |
| Defaults.RuleOptionalFieldsDefaultToAbsent | app/src/main/kotlin/org/example/model/DataModels.kt:6-13 | a rule built from ids and names alone has no description and no script |
| Defaults.EntryWithoutWorkflowIsDropped | app/src/main/kotlin/org/example/model/DataModels.kt:29 | a usage entry without a workflow is a legal value and unwrapping drops it without disturbing its neighbours |
| Scenario.DemoInvestigation | app/src/main/kotlin/org/example/tools/YouTrackTools.kt:133-147 | for a project with two workflows, only the rule enabled and bound to the project comes back, with its own workflow; this holds for the project id in either case |
| Scenario.EitherGroundExcludes | app/src/main/kotlin/org/example/tools/YouTrackTools.kt:114-116 | a rule whose only binding is to another project, or whose only binding to the project is disabled, is excluded |

## Left out

- HTTP transport: the Ktor client, its engine and the header mechanics are not modelled. A GET is a `Server` lookup by URL, and the `Authorization` value is only recorded in the request trace.
- JSON decoding: `ignoreUnknownKeys` and the decoder itself belong to the library. A body is either decoded or `Malformed`. The project lookup is modelled as two replies for the same URL, one read as text and one as a `Project`.
- Concurrency: `coroutineScope`, `async`, `awaitAll`, cancellation and `runBlocking` versus `suspend` are not modelled. The fan-out is sequential in the model, so the request trace lists the detail requests in discovery order; the real requests are concurrent.
- Process configuration: the tool set reads `DOMAIN` and `YOUTRACK_TOKEN` at load time and stops with an `IllegalStateException` when one is missing. The model takes these values as parameters instead.
- Agent wiring: the agent construction, the system prompt with its link format, the tool registry, the event handler and `main` (Agent.kt:103-137, Main.kt) are foreign-library glue.
- Documentation lookup: the classloader resource reading in ContextLoader.kt and WorkflowDocumentationTool.kt is I/O.
- JSON encoding: `SerializationUtils.rulesToJson` wraps kotlinx.serialization, so its round trip belongs to a library that is not part of this model.
- The commented-out strategy draft at the end of Agent.kt.
- CaseFold.EqualsIgnoreCaseIff: Kotlin compares with full Unicode case mappings; the model maps only the ASCII letters, so non-ASCII letters match only when they are identical.
