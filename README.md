# railway-crater, modelled in Dafny

railway-crater deploys every public Railway template into a throwaway
project and records what happens. It lists the templates and splits them
into four chunks. The first chunk is handed to a worker (`run_each`). For
each template, the worker:

- reads the template's serialized config;
- builds the `NewService` request: resolves the variables, parses the TCP
  proxy port, and derives the source, domain and healthcheck fields;
- deploys the template;
- polls the deploy's workflow until it is no longer running;
- waits until no service instance is still building;
- lists the project's services;
- harvests the build logs of every deployment;
- deletes the project.

The chunk's `Run` counts templates (`total`) and valid ones (`valid`); its
`healthy` counter is never incremented. Most failures push an error onto
the `Run`'s `errors`. Three cases push nothing and are only logged:
- a null config;
- a required variable without a default;
- a deploy that returned no workflow id. Here only the delete call's own
  failure is recorded.

The runs of the joined chunks are folded into one.

Every call to the Railway GraphQL API goes through `Railway::query`, which
classifies an HTTP exchange as data or error. The model takes each answer
as an `Exchange` value: a send failure, or a status code, a body text and a
parsed envelope. Polling loops run against a finite script of answers.

Files and modules:

- `wrappers.dfy` (`Wrappers`): `Option`, `Result`, `Outcome`.
- `errors.dfy` (`Errors`): the crate's `Error` enum as a datatype.
- `config.dfy` (`Config`): the deserialized template config.
- `templates.dfy` (`Templates`): `NewService`, `DeployedTemplate`, `Template`.
- `railway.dfy` (`Railway`): the result classification of `Railway::query`.
- `projects.dfy` (`Projects`): `Project::delete`.
- `parseint.dfy` (`ParseInt`): `str::parse::<i64>` on the proxy port key, with its error kinds.
- `polling.dfy` (`Polling`): a poll loop over a finite script, meaning the index of the first answer that ends it.
- `workflows.dfy` (`Workflows`): the `Workflow::status` poller.
- `services.dfy` (`Services`): the `Service::list` projection and the `wait_for_all_builds` waiter.
- `builder.dfy` (`Builder`): the request builder inside `run_each`.
- `report.dfy` (`Report`): `struct Run`, the recorded failures, and the merge fold of `run`.
- `worker.dfy` (`Worker`): the `run_each` driver, with the specification of one template's effect on the `Run`.
- `crater.dfy` (`Crater`): `run`, meaning the chunk split, the single spawned chunk and the fold.

Each imperative part is a method proved against a specification function:

- `Workflows.Status` is proved against `StatusOf`.
- `Services.WaitForAllBuilds` is proved against `WaitOf`.
- `Builder.Build` is proved against `RequestOf`.
- `Worker.RunEach` is proved against `ChunkOf`.

The properties the source promises are then lemmas about those functions.
In `run_each`, the `Run` is a class whose fields the methods update. Two
ghost fields record what is otherwise only visible as I/O:

- `deletes`: the number of delete calls made;
- `deploys`: the requests sent to `Template::deploy`.

## Model

| member | source | states |
|---|---|---|
| `Railway.Messages` | src/railway.rs:63-66 | the error messages keep the count and order of the envelope's `errors` |
| `Railway.Query` | src/railway.rs:44-71 | a query succeeds exactly when the status is 200, the body parses, `errors` is empty and `data` is present, and it then returns that data |
| `Railway.StatusCheckedFirst` | src/railway.rs:44-53 | a non-200 status gives `RailwayStatusFailure(status, body text)` whatever the body would have parsed to |
| `Railway.ErrorsTakePrecedence` | src/railway.rs:63-66 | a non-empty `errors` list gives `Railway(messages)`, one message per error in order, even when `data` is present |
| `Railway.MissingDataReported` | src/railway.rs:67-71 | empty `errors` with absent `data` gives `RailwayDataMissing` with the source's literal text |
| `Railway.AbsentErrorsAreEmpty` | src/railway.rs:19-22 | an envelope with no `errors` field behaves as one with an empty list |
| `Projects.Delete` | src/railway/project.rs:9-35 | one query and no retry: success exactly when the query returns `true`; a query failure is propagated unchanged; `false` gives `RailwayStatusFailure(0, "Unable to delete project: " + id)` |
| `ParseInt.ParseI64` | src/lib.rs:166-181 | parse results are within the `i64` range, and the `Empty` error occurs exactly for the empty key |
| `ParseInt.Accumulate` | src/lib.rs:169 | digit accumulation stays within the `i64` range or fails with an overflow or invalid-digit kind |
| `ParseInt.AccumulateSnoc` | src/lib.rs:169 | one more digit gives the value times ten plus (for a negative number, minus) the digit; a result above the `i64` range fails with `PosOverflow`, one below it with `NegOverflow` |
| `ParseInt.AccumulateDigits` | src/lib.rs:169 | the decimal digits of an in-range magnitude accumulate back to it, with its sign |
| `ParseInt.ParseShow` | src/lib.rs:169 | every `i64` written in decimal parses back to itself |
| `Polling.FirstEnd` | src/railway/workflow.rs:20-49 | the index of the first answer of a script that ends the poll; no earlier answer ends it (for the workflow poller, every earlier answer is `Running`; for the build waiter, every earlier listing is blocking) |
| `Workflows.Status` | src/railway/workflow.rs:18-49 | against a scripted answer sequence, the first non-`Running` answer decides the result and queries = its index + 1; `Complete` → `Complete`, `Error` → `Error(text or "")`, `NotFound` → `Error("Not Found")`, a query failure returns that error; the result is never running |
| `Workflows.RunningTwiceThenComplete` | src/railway/workflow.rs:38-48 | two `Running` answers then `Complete` take three queries and yield `Complete` |
| `Services.Instance` | src/railway/service.rs:136-147 | `status` and `deployment_id` are present exactly when `latestDeployment` is; `static_url` only if it is; the healthcheck fields are copied unchanged |
| `Services.List` | src/railway/service.rs:53-153 | a query failure is returned as is; otherwise one service per edge, in order, with its id and name, and one instance per instance edge, in order |
| `Services.StillBuilding` | src/railway/service.rs:31-47 | the nested loops find a blocking instance exactly when some instance's status is missing, `BUILDING`, `WAITING`, `INITIALIZING` or `QUEUED` |
| `Services.WaitForAllBuilds` | src/railway/service.rs:25-51 | queries = number of leading blocking listings + 1; `Ok` only after a listing with no blocking instance; a list failure is returned at once |
| `Services.EmptyServiceNeverBlocks` | src/railway/service.rs:32-34 | removing a service with no instances does not change whether the waiter polls again |
| `Builder.ResolveVariables` | src/lib.rs:114-123 | the variables map binds exactly the variables with a present, non-empty default, to that default; the service is refused exactly when some variable without one is not optional |
| `Builder.PortOf` | src/lib.rs:166-181 | no networking or no proxies gives no port; otherwise the first proxy key parsed as `i64`, or that parse's error |
| `Builder.BuildService` | src/lib.rs:114-189 | builds the service's `NewService` or the reason the template is skipped |
| `Builder.Build` | src/lib.rs:111-190 | the service loop yields its request specification: every service built in order, or the first rejection |
| `Builder.RejectionPersists` | src/lib.rs:114-181 | once a service rejects the template, later services do not change the outcome |
| `Builder.RequestBuilt` | src/lib.rs:111-190 | the request is built exactly when every service builds; it has one `NewService` per service in order, and `any_healthcheck` holds exactly when some service has a healthcheck path |
| `Builder.RequestRejected` | src/lib.rs:114-181 | a rejected request names the first service that rejects, and every earlier service builds |
| `Builder.ServiceRejections` | src/lib.rs:114-181 | a missing variable rejects the service; otherwise a port parse error rejects it with that error kind |
| `Builder.NewServiceFields` | src/lib.rs:142-189 | `Image` → template = image, no root directory; `Repo` → template = repo and root directory passed through; no source → template = name; `name` = `service_name`; `has_domain` absent without networking and otherwise whether domains exist; volumes are the mount paths in order |
| `Builder.RequiredVariableWithoutDefault` | src/lib.rs:117-121 | a required variable without a default skips the template |
| `Builder.RepoServiceWithProxy` | src/lib.rs:153-186 | a repo service with proxy `"8080"` gets port 8080, the repo as template and its root directory |
| `Report.Run.constructor` | src/lib.rs:79-84 | a new `Run` has all counters zero and no errors |
| `Report.Merge` | src/lib.rs:58-63 | the folded `total` and `valid` are the sums and `errors` the concatenation in join order; `healthy` stays zero |
| `Report.SumsSplit` | src/lib.rs:58-63 | folding two result lists one after the other equals folding their concatenation |
| `Report.MergeOrderInsensitive` | src/lib.rs:49-63 | any join order gives the same totals and the same multiset of errors |
| `Worker.Cleanup` | src/lib.rs:213-220 | a delete call appends exactly one error if it fails and otherwise changes nothing but the delete count |
| `Worker.HarvestOne` | src/lib.rs:291-333 | one harvest step records its fetch, serialize or write error, the first that fails, and then makes one delete call; a step that succeeds changes nothing |
| `Worker.HarvestInstances` | src/lib.rs:290-334 | the inner loop over one service's instances takes one harvest step per instance with a deployment id; a failure continues with the next instance |
| `Worker.RunCompleted` | src/lib.rs:247-341 | after a completed workflow: a failed build wait or listing records its error and deletes once; otherwise the `Run` gets the harvest's errors and deletes, then the final delete |
| `Worker.HarvestLogs` | src/lib.rs:289-335 | the nested harvest loops record the errors and delete calls of `Harvest` over every instance with a deployment id |
| `Worker.RunDeployed` | src/lib.rs:203-341 | after a deploy, the `Run` changes as `AfterDeploy` specifies |
| `Worker.RunTemplate` | src/lib.rs:93-341 | one template changes `errors`, `valid` and the delete count as `Outcome` specifies, and sends a deploy exactly when the request was built |
| `Worker.RunEach` | src/lib.rs:78-347 | the chunk's `Run` is `ChunkOf(chunk)`; the delete calls are `ChunkDeletes(chunk)` |
| `Worker.Accepting` | src/lib.rs:213-340 | a platform that carries out every delete adds no delete errors |
| `Worker.ChunkCounts` | src/lib.rs:88-91 | after a chunk, `total` is the chunk length, `valid <= total`, and `healthy` is zero |
| `Worker.SkippedBeforeDeploy` | src/lib.rs:93-181 | a null config or a missing required variable skips with no error; a malformed config or a bad port adds exactly one error; none of them deletes or counts as valid |
| `Worker.DeployFailure` | src/lib.rs:193-199 | a deploy failure appends one error and makes no delete call |
| `Worker.CleanupGuarantee` | src/lib.rs:203-341 | at least one delete call is made exactly when the deploy succeeded |
| `Worker.ValidIffComplete` | src/lib.rs:234-245 | `valid` is incremented exactly when the workflow completed, whatever the later steps do |
| `Worker.WorkflowErrorPath` | src/lib.rs:234-242 | a workflow `Error(m)` appends `Workflow(m)`, then makes exactly one delete call, and is not valid |
| `Worker.HarvestDeletes` | src/lib.rs:289-335 | in the harvest, the delete calls are the failed steps |
| `Worker.HarvestPathDeletes` | src/lib.rs:289-341 | on the harvest path, the deletes are 1 + the number of failed instances |
| `Worker.HarvestDeleteFailures` | src/lib.rs:289-335 | against a platform that carries out every delete, the harvest makes the same delete calls and records one error per failed step; the real harvest records those errors in the same order, each followed by its delete call's error if that delete fails, so each failed delete adds exactly one error |
| `Worker.DeleteFailuresOnlyAddErrors` | src/lib.rs:203-341 | each failed delete appends exactly one extra error and leaves the delete count and validity as if every delete succeeded |
| `Crater.Split` | src/lib.rs:29-31 | the four chunks concatenate back to the list, their lengths are (n/2)/2, n/2−(n/2)/2, (n−n/2)/2 and the rest, and they are balanced |
| `Crater.RunChunk` | src/lib.rs:42 | only the first chunk, the first ⌊n/4⌋ templates, is spawned |
| `Crater.Run` | src/lib.rs:24-68 | a listing error propagates; a directory failure gives `Io`; otherwise the result is the first chunk's `Run`, or an empty `Run` if its task did not join |
| `Crater.RunReport` | src/lib.rs:42-63 | a run counts ⌊n/4⌋ templates, at most that many valid, none healthy |

## Left out

- HTTP transport: `Railway::query`'s client, headers, URL use and GraphQL request bodies are not modelled. Each answer is an `Exchange`, and the request JSON carried by some errors is dropped.
- Deserialization: configs and responses are taken already parsed. The config is `Null`, `Malformed` or well formed. `Option::deserialize` of a non-null value is never `None`, so that case is absent.
- Timers: each `interval.tick()` is one loop step.
- Unbounded polling: `Workflows.Status`, `Services.WaitForAllBuilds` and everything calling them require a script that reaches a final answer. A platform that keeps answering `Running` or blocking, where the source waits forever, is not modelled.
- Concurrency: `JoinSet` spawn and join are reduced to `joined: bool`. A join error is logged and dropped. Join order is covered by `Report.MergeOrderInsensitive`.
- Shuffle: `thread_rng` is randomness. The listed templates are taken as already shuffled.
- Filesystem: creating the output directory is the `created` parameter of `Crater.Run`. Serializing and writing each deployment's build logs are outcomes of the `Worker.Script`'s harvest steps.
- `Deployment::build_logs`: it ends in `todo!()` (src/railway/deployment.rs:56), so its outcome is taken from the script.
  - As written, a successful fetch panics the chunk task. The `run` loop then drops that chunk at the join, which is `joined = false` in `Crater.Run`.
  - The model's path where a fetch succeeds and is followed by serialize and write therefore describes the intended, unfinished implementation.
- `Template::list` and `Template::deploy` are I/O wrappers. Their results are inputs, and the request sent is recorded in the `deploys` ghost field.
- HashMap order: services, volume mounts, service domains and TCP proxy keys are sequences in iteration order, and the "first key" is the head of that sequence. Variables stay a map because the outcome does not depend on their order.
- `u64` counters are `nat`. They never wrap in practice.
- The `health: Option<f64>` field, the commented-out healthcheck block, the logging, `main.rs` and the `Display` text of errors are not modelled.
- `Services.List`: the `collect::<Result<Vec<_>>>()` in the source wraps only `Ok` values, so it never fails, and the model has no error path there.
- `Crater.Run`: logs the merged `Run` and returns `Ok(())` in the source. The model returns the merged `Run` instead.
