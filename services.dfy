/** Service::list and Service::wait_for_all_builds
    (src/railway/service.rs): the projection of the service-list answer
    into services and instances, the "still building" test, and the loop
    that lists services every 10-second tick until nothing is building. */
module Services {
  import opened Wrappers
  import opened Errors
  import Railway
  import Polling

  // ---- the service-list answer (project.services.edges[*].node ...) ----

  datatype LatestDeployment = LatestDeployment(id: string, staticUrl: Option<string>, status: string)

  datatype InstanceNode = InstanceNode(
    healthcheckPath: Option<string>,
    healthcheckTimeout: Option<nat>,
    latestDeployment: Option<LatestDeployment>)

  /** One service edge's node; `serviceInstances` lists the instance edges' nodes. */
  datatype ServiceNode = ServiceNode(id: string, name: string, serviceInstances: seq<InstanceNode>)

  /** The whole answer: the project's service edges' nodes, in order. */
  datatype ServiceList = ServiceList(services: seq<ServiceNode>)

  // ---- the projection ----

  datatype ServiceInstance = ServiceInstance(
    healthcheckPath: Option<string>,
    healthcheckTimeout: Option<nat>,
    staticUrl: Option<string>,
    status: Option<string>,
    deploymentId: Option<string>)

  datatype Service = Service(id: string, name: string, instances: seq<ServiceInstance>)

  function Instance(n: InstanceNode): (i: ServiceInstance)
    ensures i.status.Some? <==> n.latestDeployment.Some?
    ensures i.deploymentId.Some? <==> n.latestDeployment.Some?
    ensures i.staticUrl.Some? ==> n.latestDeployment.Some?
    ensures n.latestDeployment.Some? ==>
      && i.status == Some(n.latestDeployment.value.status)
      && i.deploymentId == Some(n.latestDeployment.value.id)
      && i.staticUrl == n.latestDeployment.value.staticUrl
    ensures i.healthcheckPath == n.healthcheckPath && i.healthcheckTimeout == n.healthcheckTimeout
  {
    ServiceInstance(
      n.healthcheckPath,
      n.healthcheckTimeout,
      if n.latestDeployment.Some? then n.latestDeployment.value.staticUrl else None,
      if n.latestDeployment.Some? then Some(n.latestDeployment.value.status) else None,
      if n.latestDeployment.Some? then Some(n.latestDeployment.value.id) else None)
  }

  /** One service of the answer as `list` projects it. */
  function View(n: ServiceNode): Service {
    Service(n.id, n.name, seq(|n.serviceInstances|, j requires 0 <= j < |n.serviceInstances| => Instance(n.serviceInstances[j])))
  }

  function Views(nodes: seq<ServiceNode>): seq<Service> {
    seq(|nodes|, i requires 0 <= i < |nodes| => View(nodes[i]))
  }

  /** What `list` returns for an exchange. */
  function ListOf(x: Railway.Exchange<ServiceList>): Result<seq<Service>, Error> {
    match Railway.Query(x)
    case Failure(e) => Failure(e)
    case Success(l) => Success(Views(l.services))
  }

  /** Service::list: query, then push one view per service edge. */
  method List(x: Railway.Exchange<ServiceList>) returns (r: Result<seq<Service>, Error>)
    ensures r == ListOf(x)
    ensures r.Failure? <==> Railway.Query(x).Failure?
    ensures r.Failure? ==> r.error == Railway.Query(x).error
    // count and order of services, and of instances within each service
    ensures r.Success? ==>
      var nodes := Railway.Query(x).value.services;
      && |r.value| == |nodes|
      && forall i :: 0 <= i < |nodes| ==>
           && r.value[i].id == nodes[i].id && r.value[i].name == nodes[i].name
           && |r.value[i].instances| == |nodes[i].serviceInstances|
           && forall j :: 0 <= j < |nodes[i].serviceInstances| ==>
                r.value[i].instances[j] == Instance(nodes[i].serviceInstances[j])
  {
    var response := Railway.Query(x);
    if response.Failure? {
      return Failure(response.error);
    }
    var edges := response.value.services;
    var views := [];
    for i := 0 to |edges|
      invariant |views| == i
      invariant forall k :: 0 <= k < i ==> views[k] == View(edges[k])
    {
      var node := edges[i];
      views := views + [Service(node.id, node.name,
        seq(|node.serviceInstances|, j requires 0 <= j < |node.serviceInstances| => Instance(node.serviceInstances[j])))];
    }
    assert views == Views(edges);
    return Success(views);
  }

  // ---- the build-completion waiter ----

  /** A status that is not final yet: missing, BUILDING, WAITING, INITIALIZING or QUEUED. */
  predicate Blocking(status: Option<string>) {
    status.None? || status.value in {"BUILDING", "WAITING", "INITIALIZING", "QUEUED"}
  }

  /** Some instance of some service is still building. */
  predicate AnyBlocking(services: seq<Service>) {
    exists i, j :: 0 <= i < |services| && 0 <= j < |services[i].instances| && Blocking(services[i].instances[j].status)
  }

  /** The scan of one listing that decides whether to poll again. */
  method StillBuilding(services: seq<Service>) returns (building: bool)
    ensures building == AnyBlocking(services)
  {
    for i := 0 to |services|
      invariant forall a, b :: 0 <= a < i && 0 <= b < |services[a].instances| ==> !Blocking(services[a].instances[b].status)
    {
      var instances := services[i].instances;
      if instances == [] {
        continue;
      }
      for j := 0 to |instances|
        invariant forall b :: 0 <= b < j ==> !Blocking(instances[b].status)
      {
        if Blocking(instances[j].status) {
          return true;
        }
      }
    }
    return false;
  }

  /** Whether this listing ends the wait: the query failed, or nothing is building. */
  predicate Ends(x: Railway.Exchange<ServiceList>) {
    var l := ListOf(x);
    l.Failure? || !AnyBlocking(l.value)
  }

  /** The script reaches a listing that ends the wait (otherwise the source
      waits forever). */
  predicate Settles(xs: seq<Railway.Exchange<ServiceList>>) {
    Polling.Settles(xs, Ends)
  }

  /** The result the waiter returns for a script. */
  function WaitOf(xs: seq<Railway.Exchange<ServiceList>>): Result<(), Error>
    requires Settles(xs)
  {
    match ListOf(xs[Polling.FirstEnd(xs, Ends)])
    case Failure(e) => Failure(e)
    case Success(_) => Success(())
  }

  /** Service::wait_for_all_builds over a script of listings. */
  method WaitForAllBuilds(listings: seq<Railway.Exchange<ServiceList>>)
    returns (result: Result<(), Error>, queries: nat)
    requires Settles(listings)
    ensures queries == Polling.FirstEnd(listings, Ends) + 1
    ensures result == WaitOf(listings)
    // every listing before the last one succeeded and showed a building instance
    ensures forall j :: 0 <= j < queries - 1 ==>
      ListOf(listings[j]).Success? && AnyBlocking(ListOf(listings[j]).value)
    // Ok only after a listing in which nothing is building; a failed listing is the error
    ensures result.Success? <==> ListOf(listings[queries - 1]).Success?
    ensures result.Success? ==> !AnyBlocking(ListOf(listings[queries - 1]).value)
    ensures result.Failure? ==> result.error == ListOf(listings[queries - 1]).error
  {
    var i := 0;
    while true
      invariant i <= Polling.FirstEnd(listings, Ends)
      decreases Polling.FirstEnd(listings, Ends) - i
    {
      queries := i + 1;
      var services := List(listings[i]);
      if services.Failure? {
        return Failure(services.error), queries;
      }
      var building := StillBuilding(services.value);
      if building {
        i := i + 1;
        continue;
      }
      break;
    }
    return Success(()), queries;
  }

  /** A service without instances never holds the waiter: dropping it
      does not change whether anything is building. */
  lemma {:induction false} EmptyServiceNeverBlocks(services: seq<Service>, k: nat)
    requires k < |services| && services[k].instances == []
    ensures AnyBlocking(services) == AnyBlocking(services[..k] + services[k + 1..])
  {
    var rest := services[..k] + services[k + 1..];
    if AnyBlocking(services) {
      var i, j :| 0 <= i < |services| && 0 <= j < |services[i].instances| && Blocking(services[i].instances[j].status);
      var i' := if i < k then i else i - 1;
      assert rest[i'] == services[i];
    }
    if AnyBlocking(rest) {
      var i, j :| 0 <= i < |rest| && 0 <= j < |rest[i].instances| && Blocking(rest[i].instances[j].status);
      var i' := if i < k then i else i + 1;
      assert rest[i] == services[i'];
    }
  }
}
