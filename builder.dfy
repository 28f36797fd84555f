/** The request builder of run_each (src/lib.rs:111-190): one NewService
    per service of a template's environment, with the two short-circuits
    that abandon the whole template — a required variable without a
    non-empty default, and a TCP-proxy key that is not an i64. */
module Builder {
  import opened Wrappers
  import opened Config
  import opened Templates
  import opened ParseInt

  // ---- variables ----

  /** `default_value` is present and not the empty string. */
  predicate HasDefault(v: Variable) {
    v.defaultValue.Some? && v.defaultValue.value != ""
  }

  /** No usable default, and `is_optional` is absent or false. */
  predicate Unresolvable(v: Variable) {
    !HasDefault(v) && !v.isOptional.UnwrapOr(false)
  }

  predicate MissingRequired(vars: map<string, Variable>) {
    exists n :: n in vars && Unresolvable(vars[n])
  }

  /** The variables map sent with a service: every default that is present and non-empty. */
  function Bindings(vars: map<string, Variable>): map<string, string> {
    map n | n in vars && HasDefault(vars[n]) :: vars[n].defaultValue.value
  }

  /** The loop over `service.variables()`, visiting the names in an
      unspecified order; None stands for the `continue 'outer` that drops
      the template. */
  method ResolveVariables(vars: map<string, Variable>) returns (bound: Option<map<string, string>>)
    ensures bound.None? <==> MissingRequired(vars)
    ensures bound.Some? ==> bound.value == Bindings(vars)
    ensures bound.Some? ==> forall n :: n in bound.value <==> n in vars && HasDefault(vars[n])
    ensures bound.Some? ==> forall n :: n in bound.value ==> bound.value[n] == vars[n].defaultValue.value
  {
    var variables: map<string, string> := map[];
    var remaining := vars.Keys;
    while remaining != {}
      invariant remaining <= vars.Keys
      invariant forall n :: n in variables <==> n in vars && n !in remaining && HasDefault(vars[n])
      invariant forall n :: n in variables ==> variables[n] == vars[n].defaultValue.value
      invariant forall n :: n in vars && n !in remaining ==> !Unresolvable(vars[n])
      decreases remaining
    {
      var name :| name in remaining;
      var variable := vars[name];
      if variable.defaultValue.Some? && variable.defaultValue.value != "" {
        variables := variables[name := variable.defaultValue.value];
      } else if !variable.isOptional.UnwrapOr(false) {
        return None;
      }
      remaining := remaining - {name};
    }
    assert variables == Bindings(vars);
    return Some(variables);
  }

  // ---- the per-field derivations ----

  /** `tcp_proxy_application_port`: the first proxy key parsed as an i64,
      None without networking or without proxies. */
  function PortOf(svc: Service): (r: Result<Option<int>, IntErrorKind>)
    ensures r == Success(None) <==> svc.networking.None? || svc.networking.value.tcpProxies == []
    ensures svc.networking.Some? && svc.networking.value.tcpProxies != [] ==>
      var parsed := ParseI64(svc.networking.value.tcpProxies[0]);
      && (r.Success? <==> parsed.Success?)
      && (r.Success? ==> r.value == Some(parsed.value))
      && (r.Failure? ==> r.error == parsed.error)
    ensures r.Success? && r.value.Some? ==> I64_MIN <= r.value.value <= I64_MAX
  {
    match svc.networking
    case None => Success(None)
    case Some(n) =>
      if n.tcpProxies == [] then Success(None)
      else
        match ParseI64(n.tcpProxies[0])
        case Success(p) => Success(Some(p))
        case Failure(k) => Failure(k)
  }

  function HasDomain(svc: Service): Option<bool> {
    match svc.networking
    case None => None
    case Some(n) => Some(n.serviceDomains != [])
  }

  function HealthcheckPath(svc: Service): Option<string> {
    match svc.deploy
    case None => None
    case Some(d) => d.healthcheckPath
  }

  function StartCommand(svc: Service): Option<string> {
    match svc.deploy
    case None => None
    case Some(d) => d.startCommand
  }

  function RootDirectory(svc: Service): Option<string> {
    match svc.source
    case Some(Image(_)) => None
    case Some(Repo(rootDirectory, _)) => rootDirectory
    case None => None
  }

  /** The deploy target; the service name when the source is absent. */
  function Target(svc: Service): string {
    match svc.source
    case Some(Image(image)) => image
    case Some(Repo(_, repo)) => repo
    case None => svc.name
  }

  function Volumes(mounts: seq<(string, VolumeMount)>): seq<NewVolume> {
    seq(|mounts|, i requires 0 <= i < |mounts| => NewVolume(mounts[i].1.mountPath))
  }

  // ---- one service, one template ----

  /** Why a template was dropped: a service with an unresolvable variable
      (no error is recorded for it) or a service whose proxy key does not parse. */
  datatype Rejection =
    | MissingVariable(serviceId: string)
    | InvalidPort(serviceId: string, kind: IntErrorKind)

  /** The NewService for one service, or the short-circuit it triggers;
      the variables are checked before the port. */
  function ServiceRequest(id: string, svc: Service): Result<NewService, Rejection> {
    if MissingRequired(svc.variables) then Failure(MissingVariable(id))
    else
      match PortOf(svc)
      case Failure(kind) => Failure(InvalidPort(id, kind))
      case Success(port) =>
        Success(NewService(
          id, HasDomain(svc), HealthcheckPath(svc), svc.name, svc.name, RootDirectory(svc),
          svc.icon, StartCommand(svc), port, Target(svc), Bindings(svc.variables), Volumes(svc.volumeMounts)))
  }

  predicate HasHealthcheck(svc: Service) {
    HealthcheckPath(svc).Some?
  }

  datatype Request =
    | Built(services: seq<NewService>, anyHealthcheck: bool)
    | Rejected(reason: Rejection)

  /** The request for a sequence of services: stops at the first service
      that rejects the template. */
  function RequestOf(entries: seq<(string, Service)>): Request
    decreases |entries|
  {
    if entries == [] then Built([], false)
    else
      var last := entries[|entries| - 1];
      match RequestOf(entries[..|entries| - 1])
      case Rejected(reason) => Rejected(reason)
      case Built(services, any) =>
        match ServiceRequest(last.0, last.1)
        case Failure(reason) => Rejected(reason)
        case Success(ns) => Built(services + [ns], any || HasHealthcheck(last.1))
  }

  /** The body of the per-service loop: variables, volumes, then the port. */
  method BuildService(id: string, svc: Service) returns (r: Result<NewService, Rejection>)
    ensures r == ServiceRequest(id, svc)
  {
    var variables := ResolveVariables(svc.variables);
    if variables.None? {
      return Failure(MissingVariable(id));
    }
    var volumes := [];
    for i := 0 to |svc.volumeMounts|
      invariant volumes == Volumes(svc.volumeMounts[..i])
    {
      volumes := volumes + [NewVolume(svc.volumeMounts[i].1.mountPath)];
    }
    assert svc.volumeMounts[..|svc.volumeMounts|] == svc.volumeMounts;
    var port := PortOf(svc);
    if port.Failure? {
      return Failure(InvalidPort(id, port.error));
    }
    return Success(NewService(
      id, HasDomain(svc), HealthcheckPath(svc), svc.name, svc.name, RootDirectory(svc),
      svc.icon, StartCommand(svc), port.value, Target(svc), variables.value, volumes));
  }

  /** The `for (id, service)` loop over a parsed environment. */
  method Build(env: Environment) returns (r: Request)
    ensures r == RequestOf(env.services)
  {
    var entries := env.services;
    var services := [];
    var anyHealthcheck := false;
    for i := 0 to |entries|
      invariant RequestOf(entries[..i]) == Built(services, anyHealthcheck)
    {
      assert entries[..i + 1][..i] == entries[..i];
      var (id, svc) := entries[i];
      var service := BuildService(id, svc);
      if service.Failure? {
        RejectionPersists(entries, i + 1);
        return Rejected(service.error);
      }
      if HealthcheckPath(svc).Some? {
        anyHealthcheck := true;
      }
      services := services + [service.value];
    }
    assert entries[..|entries|] == entries;
    return Built(services, anyHealthcheck);
  }

  // ---- properties ----

  /** Once a prefix rejects the template, the whole environment does, for the same reason. */
  lemma {:induction false} RejectionPersists(entries: seq<(string, Service)>, k: nat)
    requires k <= |entries| && RequestOf(entries[..k]).Rejected?
    ensures RequestOf(entries) == RequestOf(entries[..k])
    decreases |entries|
  {
    if k < |entries| {
      var init := entries[..|entries| - 1];
      assert init[..k] == entries[..k];
      RejectionPersists(init, k);
    } else {
      assert entries[..k] == entries;
    }
  }

  /** The request is built exactly when every service yields a NewService;
      then it holds one per service, in order, and the healthcheck flag says
      whether any of them declares a healthcheck path. */
  lemma {:induction false} RequestBuilt(entries: seq<(string, Service)>)
    ensures RequestOf(entries).Built? <==>
      forall i :: 0 <= i < |entries| ==> ServiceRequest(entries[i].0, entries[i].1).Success?
    ensures RequestOf(entries).Built? ==>
      var r := RequestOf(entries);
      && |r.services| == |entries|
      && (forall i :: 0 <= i < |entries| ==> r.services[i] == ServiceRequest(entries[i].0, entries[i].1).value)
      && (r.anyHealthcheck <==> exists i :: 0 <= i < |r.services| && r.services[i].healthcheckPath.Some?)
    decreases |entries|
  {
    if entries != [] {
      var init := entries[..|entries| - 1];
      RequestBuilt(init);
      assert forall i :: 0 <= i < |init| ==> init[i] == entries[i];
    }
  }

  /** A rejection comes from the first service that rejects, and every
      service before it yields a NewService. */
  lemma {:induction false} RequestRejected(entries: seq<(string, Service)>)
    requires RequestOf(entries).Rejected?
    ensures exists i ::
              && 0 <= i < |entries|
              && (forall j :: 0 <= j < i ==> ServiceRequest(entries[j].0, entries[j].1).Success?)
              && ServiceRequest(entries[i].0, entries[i].1) == Failure(RequestOf(entries).reason)
    decreases |entries|
  {
    var init := entries[..|entries| - 1];
    assert forall i :: 0 <= i < |init| ==> init[i] == entries[i];
    if RequestOf(init).Rejected? {
      RequestRejected(init);
    } else {
      RequestBuilt(init);
      var last := |entries| - 1;
      assert ServiceRequest(entries[last].0, entries[last].1) == Failure(RequestOf(entries).reason);
    }
  }

  /** The short-circuits of one service: an unresolvable variable wins over
      a bad port. */
  lemma ServiceRejections(id: string, svc: Service)
    ensures ServiceRequest(id, svc) == Failure(MissingVariable(id)) <==> MissingRequired(svc.variables)
    ensures (ServiceRequest(id, svc).Failure? && ServiceRequest(id, svc).error.InvalidPort?) <==>
      !MissingRequired(svc.variables) && PortOf(svc).Failure?
    ensures ServiceRequest(id, svc).Failure? && ServiceRequest(id, svc).error.InvalidPort? ==>
      ServiceRequest(id, svc).error == InvalidPort(id, PortOf(svc).error)
  {
  }

  /** The fields of a built NewService. */
  lemma NewServiceFields(id: string, svc: Service)
    requires ServiceRequest(id, svc).Success?
    ensures var ns := ServiceRequest(id, svc).value;
      && ns.id == id
      && ns.name == svc.name && ns.serviceName == svc.name
      && ns.serviceIcon == svc.icon
      && (svc.source.None? ==> ns.template == svc.name && ns.rootDirectory.None?)
      && (svc.source.Some? && svc.source.value.Image? ==>
            ns.template == svc.source.value.image && ns.rootDirectory.None?)
      && (svc.source.Some? && svc.source.value.Repo? ==>
            ns.template == svc.source.value.repo && ns.rootDirectory == svc.source.value.rootDirectory)
      && (svc.networking.None? ==> ns.hasDomain.None? && ns.tcpProxyApplicationPort.None?)
      && (svc.networking.Some? ==> ns.hasDomain == Some(|svc.networking.value.serviceDomains| > 0))
      && Success(ns.tcpProxyApplicationPort) == PortOf(svc)
      && (svc.deploy.None? ==> ns.healthcheckPath.None? && ns.startCommand.None?)
      && (svc.deploy.Some? ==>
            ns.healthcheckPath == svc.deploy.value.healthcheckPath && ns.startCommand == svc.deploy.value.startCommand)
      && (forall n :: n in ns.variables <==> n in svc.variables && HasDefault(svc.variables[n]))
      && (forall n :: n in ns.variables ==> ns.variables[n] == svc.variables[n].defaultValue.value)
      && |ns.volumes| == |svc.volumeMounts|
      && (forall i :: 0 <= i < |ns.volumes| ==> ns.volumes[i].mountPath == svc.volumeMounts[i].1.mountPath)
  {
  }

  /** A required variable without a default drops the service's template. */
  lemma RequiredVariableWithoutDefault(id: string, svc: Service)
    requires svc.variables == map["API_KEY" := Variable(None, None, Some(false))]
    ensures ServiceRequest(id, svc) == Failure(MissingVariable(id))
  {
    assert Unresolvable(svc.variables["API_KEY"]);
  }

  /** A repo service with one proxy on "8080" and root directory "backend". */
  lemma RepoServiceWithProxy(id: string, svc: Service)
    requires svc.variables == map[]
    requires svc.networking == Some(Networking([], ["8080"]))
    requires svc.source == Some(Repo(Some("backend"), "org/app"))
    ensures ServiceRequest(id, svc).Success?
    ensures ServiceRequest(id, svc).value.tcpProxyApplicationPort == Some(8080)
    ensures ServiceRequest(id, svc).value.rootDirectory == Some("backend")
    ensures ServiceRequest(id, svc).value.template == "org/app"
  {
    ParseShow(8080);
    assert Digits(8) == "8";
    assert Digits(80) == "80";
    assert Digits(808) == "808";
    assert Show(8080) == "8080";
  }
}
