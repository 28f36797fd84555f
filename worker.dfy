/** run_each (src/lib.rs:78-347): the chunk worker that drives each template
    through config, request building, deploy, workflow poll, build wait,
    service listing, log harvest and cleanup, recording into a Run.

    Every remote call is answered by the template's `Script`: the
    platform's answers to the workflow polls, to the build-wait listings,
    to the harvest listing, to the k-th build-log harvest and to the k-th
    delete query. One tick of the 1-second interval is one loop step. */
module Worker {
  import opened Wrappers
  import opened Errors
  import opened Templates
  import Config
  import Railway
  import Projects
  import Workflows
  import Services
  import Builder
  import opened Report

  /** Harvesting one deployment's build logs: fetch them, serialize them,
      write them to the run's output directory. */
  datatype HarvestStep = HarvestStep(fetch: Outcome<Error>, serialize: Outcome<string>, write: Outcome<string>)

  /** One template of the chunk with the answers to every call made for it. */
  datatype Script = Script(
    template: Template,
    deploy: Result<DeployedTemplate, Error>,
    polls: seq<Railway.Exchange<Workflows.StatusResponse>>,
    waits: seq<Railway.Exchange<Services.ServiceList>>,
    listing: Railway.Exchange<Services.ServiceList>,
    harvest: nat -> HarvestStep,
    deletes: nat -> Railway.Exchange<bool>)

  /** Both polling loops reach a final answer; without one the worker never
      finishes the template. */
  predicate Settles(t: Script) {
    Workflows.Settles(t.polls) && Services.Settles(t.waits)
  }

  // ---- the specification of one template ----

  /** What one template adds to the Run: its errors, whether it counts as
      valid, and how many delete calls it made. */
  datatype Effect = Effect(errors: seq<Failure>, valid: bool, deletes: nat)

  /** The error the d-th delete of project `pid` adds, if it fails. */
  function DeleteErrors(t: Script, pid: string, d: nat): seq<Failure> {
    match Projects.Delete(pid, t.deletes(d))
    case Success(_) => []
    case Failure(e) => [Api(e)]
  }

  /** The error a harvest step records, if one of its three parts fails. */
  function StepFailure(s: HarvestStep): Option<Failure> {
    if s.fetch.Fail? then Some(Api(s.fetch.error))
    else if s.serialize.Fail? then Some(LogsUnserializable(s.serialize.error))
    else if s.write.Fail? then Some(LogsUnwritable(s.write.error))
    else None
  }

  /** The errors and delete calls of the first n harvest steps; each failed
      step records its error and deletes the project, and the next step still runs. */
  function Harvest(t: Script, pid: string, n: nat): (seq<Failure>, nat) {
    if n == 0 then ([], 0)
    else
      var (errors, deletes) := Harvest(t, pid, n - 1);
      match StepFailure(t.harvest(n - 1))
      case None => (errors, deletes)
      case Some(f) => (errors + [f] + DeleteErrors(t, pid, deletes), deletes + 1)
  }

  function FetchesIn(instances: seq<Services.ServiceInstance>): nat {
    if instances == [] then 0
    else FetchesIn(instances[..|instances| - 1]) + (if instances[|instances| - 1].deploymentId.Some? then 1 else 0)
  }

  /** The number of instances that carry a deployment id: one harvest step each. */
  function Fetches(services: seq<Services.Service>): nat {
    if services == [] then 0
    else Fetches(services[..|services| - 1]) + FetchesIn(services[|services| - 1].instances)
  }

  /** The services sent to Template::deploy, if the template gets that far. */
  function Deployment(t: Script): Option<seq<NewService>> {
    match t.template.serializedConfig
    case Wellformed(env) =>
      (match Builder.RequestOf(env.services)
       case Built(services, _) => Some(services)
       case Rejected(_) => None)
    case _ => None
  }

  /** Everything after the workflow completed (src/lib.rs:237-341): the
      template already counts as valid. */
  function AfterComplete(t: Script, pid: string): Effect
    requires Services.Settles(t.waits)
  {
    match Services.WaitOf(t.waits)
    case Failure(e) => Effect([Api(e)] + DeleteErrors(t, pid, 0), true, 1)
    case Success(_) =>
      match Services.ListOf(t.listing)
      case Failure(e) => Effect([Api(e)] + DeleteErrors(t, pid, 0), true, 1)
      case Success(services) =>
        var (errors, deletes) := Harvest(t, pid, Fetches(services));
        Effect(errors + DeleteErrors(t, pid, deletes), true, deletes + 1)
  }

  /** Everything after a successful deploy (src/lib.rs:203-341). */
  function AfterDeploy(t: Script, deployed: DeployedTemplate): Effect
    requires Settles(t)
  {
    var pid := deployed.projectId;
    if deployed.workflowId.None? then Effect(DeleteErrors(t, pid, 0), false, 1)
    else
      match Workflows.StatusOf(t.polls)
      case Failure(e) => Effect([Api(e)] + DeleteErrors(t, pid, 0), false, 1)
      case Success(Error(m)) => Effect([Api(Workflow(m))] + DeleteErrors(t, pid, 0), false, 1)
      case Success(Complete) => AfterComplete(t, pid)
  }

  /** What one template adds to the Run. */
  function Outcome(t: Script): Effect
    requires Settles(t)
  {
    match t.template.serializedConfig
    case Null => Effect([], false, 0)
    case Malformed(reason) => Effect([ConfigInvalid(reason)], false, 0)
    case Wellformed(env) =>
      match Builder.RequestOf(env.services)
      case Rejected(MissingVariable(_)) => Effect([], false, 0)
      case Rejected(InvalidPort(_, kind)) => Effect([PortInvalid(kind)], false, 0)
      case Built(_, _) =>
        match t.deploy
        case Failure(e) => Effect([Api(e)], false, 0)
        case Success(deployed) => AfterDeploy(t, deployed)
  }

  /** The Run after a chunk. */
  function ChunkOf(chunk: seq<Script>): Tally
    requires forall t | t in chunk :: Settles(t)
  {
    if chunk == [] then Tally(0, 0, 0, [])
    else
      var before := ChunkOf(chunk[..|chunk| - 1]);
      var e := Outcome(chunk[|chunk| - 1]);
      Tally(before.total + 1, before.healthy, before.valid + (if e.valid then 1 else 0), before.errors + e.errors)
  }

  /** The delete calls a chunk makes. */
  function ChunkDeletes(chunk: seq<Script>): nat
    requires forall t | t in chunk :: Settles(t)
  {
    if chunk == [] then 0 else ChunkDeletes(chunk[..|chunk| - 1]) + Outcome(chunk[|chunk| - 1]).deletes
  }

  // ---- the driver ----

  /** `Project::delete` on an exit path: a failure is recorded and nothing else. */
  method Cleanup(run: Run, t: Script, pid: string, d: nat)
    modifies run
    ensures run.errors == old(run.errors) + DeleteErrors(t, pid, d)
    ensures run.deletes == old(run.deletes) + 1
    ensures run.total == old(run.total) && run.healthy == old(run.healthy) && run.valid == old(run.valid)
    ensures run.deploys == old(run.deploys)
  {
    var deleted := Projects.Delete(pid, t.deletes(d));
    run.deletes := run.deletes + 1;
    if deleted.Failure? {
      run.errors := run.errors + [Api(deleted.error)];
    }
  }

  /** The k-th harvest step (src/lib.rs:295-333), after d delete calls;
      `base` and `deleted` are what the Run held before the first step. */
  method HarvestOne(run: Run, t: Script, pid: string, k: nat, d: nat, ghost base: seq<Failure>, ghost deleted: nat)
    returns (d': nat)
    requires d == Harvest(t, pid, k).1
    requires run.errors == base + Harvest(t, pid, k).0 && run.deletes == deleted + d
    modifies run
    ensures d' == Harvest(t, pid, k + 1).1
    ensures run.errors == base + Harvest(t, pid, k + 1).0 && run.deletes == deleted + d'
    ensures run.total == old(run.total) && run.healthy == old(run.healthy) && run.valid == old(run.valid)
    ensures run.deploys == old(run.deploys)
  {
    var step := t.harvest(k);
    d' := d;
    var f: Option<Failure> := None;
    if step.fetch.Fail? {
      f := Some(Api(step.fetch.error));
    } else if step.serialize.Fail? {
      f := Some(LogsUnserializable(step.serialize.error));
    } else if step.write.Fail? {
      f := Some(LogsUnwritable(step.write.error));
    }
    assert f == StepFailure(step);
    if f.Some? {
      run.errors := run.errors + [f.value];
      Cleanup(run, t, pid, d);
      d' := d + 1;
    }
  }

  /** The inner harvest loop over one service's instances; a failure
      `continue`s it, so the remaining instances are still harvested. */
  method HarvestInstances(run: Run, t: Script, pid: string, instances: seq<Services.ServiceInstance>, k0: nat, d0: nat,
                          ghost base: seq<Failure>, ghost deleted: nat)
    returns (k: nat, d: nat)
    requires d0 == Harvest(t, pid, k0).1
    requires run.errors == base + Harvest(t, pid, k0).0 && run.deletes == deleted + d0
    modifies run
    ensures k == k0 + FetchesIn(instances) && d == Harvest(t, pid, k).1
    ensures run.errors == base + Harvest(t, pid, k).0 && run.deletes == deleted + d
    ensures run.total == old(run.total) && run.healthy == old(run.healthy) && run.valid == old(run.valid)
    ensures run.deploys == old(run.deploys)
  {
    k, d := k0, d0;
    for ii := 0 to |instances|
      invariant k == k0 + FetchesIn(instances[..ii]) && d == Harvest(t, pid, k).1
      invariant run.errors == base + Harvest(t, pid, k).0 && run.deletes == deleted + d
      invariant run.total == old(run.total) && run.healthy == old(run.healthy) && run.valid == old(run.valid)
      invariant run.deploys == old(run.deploys)
    {
      assert instances[..ii + 1][..ii] == instances[..ii];
      if instances[ii].deploymentId.Some? {
        d := HarvestOne(run, t, pid, k, d, base, deleted);
        k := k + 1;
      }
    }
    assert instances[..|instances|] == instances;
  }

  /** The harvest loops (src/lib.rs:289-335). Returns the number of delete
      calls made. */
  method HarvestLogs(run: Run, t: Script, pid: string, services: seq<Services.Service>) returns (d: nat)
    modifies run
    ensures run.errors == old(run.errors) + Harvest(t, pid, Fetches(services)).0
    ensures d == Harvest(t, pid, Fetches(services)).1
    ensures run.deletes == old(run.deletes) + d
    ensures run.total == old(run.total) && run.healthy == old(run.healthy) && run.valid == old(run.valid)
    ensures run.deploys == old(run.deploys)
  {
    ghost var base, deleted := run.errors, run.deletes;
    var k := 0;
    d := 0;
    for si := 0 to |services|
      invariant k == Fetches(services[..si]) && d == Harvest(t, pid, k).1
      invariant run.errors == base + Harvest(t, pid, k).0 && run.deletes == deleted + d
      invariant run.total == old(run.total) && run.healthy == old(run.healthy) && run.valid == old(run.valid)
      invariant run.deploys == old(run.deploys)
    {
      assert services[..si + 1][..si] == services[..si];
      k, d := HarvestInstances(run, t, pid, services[si].instances, k, d, base, deleted);
    }
    assert services[..|services|] == services;
  }

  /** src/lib.rs:237-341: wait for the builds, list the services, harvest
      their logs and delete the project. */
  method RunCompleted(run: Run, t: Script, pid: string)
    requires Services.Settles(t.waits)
    modifies run
    ensures run.errors == old(run.errors) + AfterComplete(t, pid).errors
    ensures run.deletes == old(run.deletes) + AfterComplete(t, pid).deletes
    ensures run.total == old(run.total) && run.healthy == old(run.healthy) && run.valid == old(run.valid)
    ensures run.deploys == old(run.deploys)
  {
    var waited, _ := Services.WaitForAllBuilds(t.waits);
    if waited.Failure? {
      run.errors := run.errors + [Api(waited.error)];
      Cleanup(run, t, pid, 0);
      return;
    }
    var services := Services.List(t.listing);
    if services.Failure? {
      run.errors := run.errors + [Api(services.error)];
      Cleanup(run, t, pid, 0);
      return;
    }
    var d := HarvestLogs(run, t, pid, services.value);
    Cleanup(run, t, pid, d);
  }

  /** src/lib.rs:203-341, for a deployed project: poll the workflow, then
      go on only if it completed. */
  method RunDeployed(run: Run, t: Script, deployed: DeployedTemplate)
    requires Settles(t)
    modifies run
    ensures run.errors == old(run.errors) + AfterDeploy(t, deployed).errors
    ensures run.valid == old(run.valid) + (if AfterDeploy(t, deployed).valid then 1 else 0)
    ensures run.deletes == old(run.deletes) + AfterDeploy(t, deployed).deletes
    ensures run.total == old(run.total) && run.healthy == old(run.healthy)
    ensures run.deploys == old(run.deploys)
  {
    var pid := deployed.projectId;
    if deployed.workflowId.None? {
      Cleanup(run, t, pid, 0);
      return;
    }
    var status, _ := Workflows.Status(t.polls);
    if status.Failure? {
      run.errors := run.errors + [Api(status.error)];
      Cleanup(run, t, pid, 0);
      return;
    }
    if status.value.Error? {
      run.errors := run.errors + [Api(Workflow(status.value.message))];
      Cleanup(run, t, pid, 0);
      return;
    }
    run.valid := run.valid + 1;
    RunCompleted(run, t, pid);
  }

  /** The body of the `'outer` loop after `run.total += 1`. */
  method RunTemplate(run: Run, t: Script)
    requires Settles(t)
    modifies run
    ensures run.errors == old(run.errors) + Outcome(t).errors
    ensures run.valid == old(run.valid) + (if Outcome(t).valid then 1 else 0)
    ensures run.deletes == old(run.deletes) + Outcome(t).deletes
    ensures run.deploys == old(run.deploys) +
      (if Deployment(t).Some? then [(t.template.code, Deployment(t).value)] else [])
    ensures run.total == old(run.total) && run.healthy == old(run.healthy)
  {
    var config := t.template.serializedConfig;
    if config.Null? {
      return;
    }
    if config.Malformed? {
      run.errors := run.errors + [ConfigInvalid(config.reason)];
      return;
    }
    var request := Builder.Build(config.env);
    if request.Rejected? {
      if request.reason.InvalidPort? {
        run.errors := run.errors + [PortInvalid(request.reason.kind)];
      }
      return;
    }
    run.deploys := run.deploys + [(t.template.code, request.services)];
    if t.deploy.Failure? {
      run.errors := run.errors + [Api(t.deploy.error)];
      return;
    }
    RunDeployed(run, t, t.deploy.value);
  }

  /** run_each: every template of the chunk, in order. */
  method RunEach(chunk: seq<Script>) returns (report: Tally, ghost deletes: nat)
    requires forall t | t in chunk :: Settles(t)
    ensures report == ChunkOf(chunk)
    ensures deletes == ChunkDeletes(chunk)
  {
    var run := new Run();
    for i := 0 to |chunk|
      invariant run.Snapshot() == ChunkOf(chunk[..i])
      invariant run.deletes == ChunkDeletes(chunk[..i])
    {
      assert chunk[..i + 1][..i] == chunk[..i];
      run.total := run.total + 1;
      RunTemplate(run, chunk[i]);
    }
    assert chunk[..|chunk|] == chunk;
    return run.Snapshot(), run.deletes;
  }
  // ---- what run_each promises ----

  /** The id of the project a template deployed, if any. */
  function ProjectOf(t: Script): string {
    if t.deploy.Success? then t.deploy.value.projectId else ""
  }

  /** The number of harvest steps among the first n that fail. */
  function FailedSteps(t: Script, n: nat): nat {
    if n == 0 then 0 else FailedSteps(t, n - 1) + (if StepFailure(t.harvest(n - 1)).Some? then 1 else 0)
  }

  /** The number of delete calls among the first m that fail. */
  function FailedDeletes(t: Script, pid: string, m: nat): nat {
    if m == 0 then 0 else FailedDeletes(t, pid, m - 1) + (if Projects.Delete(pid, t.deletes(m - 1)).Failure? then 1 else 0)
  }

  /** The platform's answer to a delete it carries out. */
  const ACCEPTED: Railway.Exchange<bool> := Railway.Received(200, Success(""), Railway.Parsed(Railway.Envelope(Some(true), None)))

  /** The same template against a platform that carries out every delete. */
  function Accepting(t: Script): (a: Script)
    ensures Settles(t) ==> Settles(a)
    ensures forall d: nat :: DeleteErrors(a, ProjectOf(t), d) == []
  {
    t.(deletes := _ => ACCEPTED)
  }

  /** After a chunk, every template was counted, no more are valid than were
      counted, and none is healthy. */
  lemma {:induction false} ChunkCounts(chunk: seq<Script>)
    requires forall t | t in chunk :: Settles(t)
    ensures ChunkOf(chunk).total == |chunk|
    ensures ChunkOf(chunk).valid <= ChunkOf(chunk).total
    ensures ChunkOf(chunk).healthy == 0
  {
    if chunk != [] {
      ChunkCounts(chunk[..|chunk| - 1]);
    }
  }

  /** A template that never reaches Template::deploy makes no delete call and
      is not valid: a null config or a missing required variable adds no
      error, a malformed config or a bad port adds exactly one. */
  lemma SkippedBeforeDeploy(t: Script)
    requires Settles(t) && Deployment(t).None?
    ensures Outcome(t).deletes == 0 && !Outcome(t).valid
    ensures t.template.serializedConfig.Null? ==> Outcome(t).errors == []
    ensures t.template.serializedConfig.Malformed? ==> Outcome(t).errors == [ConfigInvalid(t.template.serializedConfig.reason)]
    ensures t.template.serializedConfig.Wellformed? ==>
      match Builder.RequestOf(t.template.serializedConfig.env.services)
      case Rejected(MissingVariable(_)) => Outcome(t).errors == []
      case Rejected(InvalidPort(_, kind)) => Outcome(t).errors == [PortInvalid(kind)]
      case Built(_, _) => false
  {
  }

  /** A failed deploy adds one error and deletes nothing. */
  lemma DeployFailure(t: Script)
    requires Settles(t) && Deployment(t).Some? && t.deploy.Failure?
    ensures Outcome(t) == Effect([Api(t.deploy.error)], false, 0)
  {
  }

  /** A template makes a delete call exactly when its deploy succeeded. */
  lemma CleanupGuarantee(t: Script)
    requires Settles(t)
    ensures Outcome(t).deletes >= 1 <==> Deployment(t).Some? && t.deploy.Success?
  {
  }

  /** A template counts as valid exactly when it was deployed with a workflow
      that completed, whatever the build wait, listing and harvest do after. */
  lemma ValidIffComplete(t: Script)
    requires Settles(t)
    ensures Outcome(t).valid <==>
      Deployment(t).Some? && t.deploy.Success? && t.deploy.value.workflowId.Some? &&
      Workflows.StatusOf(t.polls) == Success(Workflows.WorkflowStatus.Complete)
  {
  }

  /** A workflow that ends in Error(m) records Workflow(m) first and then
      makes exactly one delete call. */
  lemma WorkflowErrorPath(t: Script, m: string)
    requires Settles(t) && Deployment(t).Some? && t.deploy.Success? && t.deploy.value.workflowId.Some?
    requires Workflows.StatusOf(t.polls) == Success(Workflows.WorkflowStatus.Error(m))
    ensures Outcome(t).errors == [Api(Workflow(m))] + DeleteErrors(t, ProjectOf(t), 0)
    ensures Outcome(t).deletes == 1 && !Outcome(t).valid
  {
  }

  /** Each failed harvest step deletes the project once. */
  lemma {:induction false} HarvestDeletes(t: Script, pid: string, n: nat)
    ensures Harvest(t, pid, n).1 == FailedSteps(t, n)
  {
    if n > 0 {
      HarvestDeletes(t, pid, n - 1);
    }
  }

  /** On the harvest path the template makes one delete call per failed
      instance, plus the final one. */
  lemma HarvestPathDeletes(t: Script, services: seq<Services.Service>)
    requires Settles(t) && Deployment(t).Some? && t.deploy.Success? && t.deploy.value.workflowId.Some?
    requires Workflows.StatusOf(t.polls) == Success(Workflows.WorkflowStatus.Complete)
    requires Services.WaitOf(t.waits).Success? && Services.ListOf(t.listing) == Success(services)
    ensures Outcome(t).deletes == 1 + FailedSteps(t, Fetches(services))
  {
    HarvestDeletes(t, ProjectOf(t), Fetches(services));
  }

  /** The step errors `steps`, the k-th followed by the error of the k-th
      delete call, if that delete fails. */
  function WithDeleteErrors(steps: seq<Failure>, t: Script, pid: string): seq<Failure> {
    if steps == [] then []
    else WithDeleteErrors(steps[..|steps| - 1], t, pid) + [steps[|steps| - 1]] + DeleteErrors(t, pid, |steps| - 1)
  }

  /** The harvest against a platform that carries out every delete makes the
      same delete calls and records one error per failed step; the real
      harvest records the same errors in the same order, each followed by
      the error of the delete call it makes, if that delete fails. */
  lemma {:induction false} HarvestDeleteFailures(t: Script, pid: string, n: nat)
    ensures Harvest(Accepting(t), pid, n).1 == Harvest(t, pid, n).1
    ensures |Harvest(Accepting(t), pid, n).0| == Harvest(t, pid, n).1
    ensures Harvest(t, pid, n).0 == WithDeleteErrors(Harvest(Accepting(t), pid, n).0, t, pid)
    ensures |Harvest(t, pid, n).0| == |Harvest(Accepting(t), pid, n).0| + FailedDeletes(t, pid, Harvest(t, pid, n).1)
  {
    if n > 0 {
      HarvestDeleteFailures(t, pid, n - 1);
      var d := Harvest(t, pid, n - 1).1;
      var before := Harvest(Accepting(t), pid, n - 1).0;
      var f := StepFailure(t.harvest(n - 1));
      assert StepFailure(Accepting(t).harvest(n - 1)) == f;
      if f.Some? {
        assert DeleteErrors(Accepting(t), pid, d) == [];
        assert Harvest(Accepting(t), pid, n).0 == before + [f.value];
        assert (before + [f.value])[..|before|] == before;
        assert Harvest(t, pid, n).1 == d + 1;
        FailedDeletesLast(t, pid, d);
      }
    }
  }

  /** DeleteFailuresOnlyAddErrors for the steps after a completed workflow. */
  lemma CompletedDeleteFailures(t: Script, pid: string)
    requires Services.Settles(t.waits)
    ensures AfterComplete(Accepting(t), pid).deletes == AfterComplete(t, pid).deletes
    ensures AfterComplete(Accepting(t), pid).valid == AfterComplete(t, pid).valid
    ensures |AfterComplete(t, pid).errors| ==
      |AfterComplete(Accepting(t), pid).errors| + FailedDeletes(t, pid, AfterComplete(t, pid).deletes)
  {
    var a := Accepting(t);
    assert a.waits == t.waits && a.listing == t.listing && a.harvest == t.harvest;
    if Services.WaitOf(t.waits).Success? && Services.ListOf(t.listing).Success? {
      var n := Fetches(Services.ListOf(t.listing).value);
      HarvestDeleteFailures(t, pid, n);
      FailedDeletesLast(t, pid, Harvest(t, pid, n).1);
    } else {
      FailedDeletesLast(t, pid, 0);
    }
  }

  /** DeleteFailuresOnlyAddErrors for a deployed project. */
  lemma DeployedDeleteFailures(t: Script, deployed: DeployedTemplate)
    requires Settles(t)
    ensures AfterDeploy(Accepting(t), deployed).deletes == AfterDeploy(t, deployed).deletes
    ensures AfterDeploy(Accepting(t), deployed).valid == AfterDeploy(t, deployed).valid
    ensures |AfterDeploy(t, deployed).errors| ==
      |AfterDeploy(Accepting(t), deployed).errors| + FailedDeletes(t, deployed.projectId, AfterDeploy(t, deployed).deletes)
  {
    var a := Accepting(t);
    assert a.polls == t.polls;
    FailedDeletesLast(t, deployed.projectId, 0);
    if deployed.workflowId.Some? && Workflows.StatusOf(t.polls) == Success(Workflows.WorkflowStatus.Complete) {
      CompletedDeleteFailures(t, deployed.projectId);
    }
  }

  /** A failed delete adds exactly one error and changes nothing else: the
      template makes the same delete calls and is as valid as it would be
      had every delete been carried out. */
  lemma DeleteFailuresOnlyAddErrors(t: Script)
    requires Settles(t)
    ensures Outcome(Accepting(t)).deletes == Outcome(t).deletes
    ensures Outcome(Accepting(t)).valid == Outcome(t).valid
    ensures |Outcome(t).errors| == |Outcome(Accepting(t)).errors| + FailedDeletes(t, ProjectOf(t), Outcome(t).deletes)
  {
    var a := Accepting(t);
    assert a.template == t.template && a.deploy == t.deploy;
    if Deployment(t).Some? && t.deploy.Success? {
      DeployedDeleteFailures(t, t.deploy.value);
    }
  }

  lemma FailedDeletesLast(t: Script, pid: string, m: nat)
    ensures FailedDeletes(t, pid, m + 1) == FailedDeletes(t, pid, m) + |DeleteErrors(t, pid, m)|
  {
  }
}
