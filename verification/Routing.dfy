/** Deployments and the versioned route table of each environment: the state and
    the effects that command reports and gateway reports have on it
    (internal/store/models.go, desired_state.go and the deployment parts of
    commands.go and deployments.go), as pure functions. */
module Routing {
  import opened Base
  import Ids

  datatype DeploymentStatus =
    | Requested | CommandCreated | Deploying | Healthy | DeployFailed
    | RoutePending | RouteActive | RouteFailed | Removed

  /** What is fixed when a deployment is created. */
  datatype DeploymentInfo = DeploymentInfo(
    id: string, application: string, environment: string, image: string, host: string,
    targetAgentId: string, containerName: string, containerInternalPort: int,
    healthCheckPath: string, requiresRoute: bool, createdAt: Time)

  datatype Deployment = Deployment(
    info: DeploymentInfo, status: DeploymentStatus, commandId: string,
    runtimePrivateIP: string, hostPort: int, routeId: string, updatedAt: Time)

  datatype Route = Route(
    id: string, environment: string, host: string, path: string, upstream: string,
    deploymentId: string, healthCheckPath: string)

  datatype DesiredState = DesiredState(version: nat, kind: string, environment: string, routes: seq<Route>)

  datatype Tables = Tables(
    deployments: map<string, Deployment>,
    states: map<string, DesiredState>,
    deploymentSeq: nat,
    routeSeq: nat,
    versionSeq: map<string, nat>)

  const EMPTY := Tables(map[], map[], 0, 0, map[])

  const GATEWAY_ROUTES := "gateway_routes"

  // ---- the route table of one environment ----

  /** The first route for a host, or the length of the list. */
  function HostIndex(rs: seq<Route>, host: string): (i: nat)
    ensures i <= |rs|
    ensures i < |rs| ==> rs[i].host == host
    ensures forall j | 0 <= j < i :: rs[j].host != host
  {
    if rs == [] || rs[0].host == host then 0
    else
      assert forall j | 1 <= j < |rs| :: rs[j] == rs[1..][j - 1];
      1 + HostIndex(rs[1..], host)
  }

  /** Upsert by host: only upstream and owner of an existing route change. */
  function Upserted(rs: seq<Route>, made: Route): seq<Route> {
    var i := HostIndex(rs, made.host);
    if i < |rs|
    then rs[i := rs[i].(upstream := made.upstream, deploymentId := made.deploymentId)]
    else rs + [made]
  }

  /** The routes whose id is not the given one, in order. */
  function Without(rs: seq<Route>, id: string): seq<Route> {
    if rs == [] then []
    else
      var n := |rs| - 1;
      Without(rs[..n], id) + if rs[n].id != id then [rs[n]] else []
  }

  // ---- desired states ----

  function Unpublished(environment: string): DesiredState {
    DesiredState(0, GATEWAY_ROUTES, environment, [])
  }

  /** What GetDesiredState answers. */
  function Get(t: Tables, environment: string): DesiredState {
    if environment in t.states then t.states[environment] else Unpublished(environment)
  }

  function VersionOf(t: Tables, environment: string): nat { Get(t, environment).version }

  function RoutesOf(t: Tables, environment: string): seq<Route> { Get(t, environment).routes }

  function WithState(t: Tables, environment: string, ds: DesiredState): Tables {
    t.(states := t.states[environment := ds])
  }

  function WithRoutes(t: Tables, environment: string, rs: seq<Route>): Tables {
    WithState(t, environment, Get(t, environment).(routes := rs))
  }

  /** Returns the new tables and the id of the route now serving the host. */
  function Upsert(t: Tables, environment: string, host: string, upstream: string,
                  deploymentId: string, healthCheckPath: string): (Tables, string) {
    var ds := Get(t, environment);
    var i := HostIndex(ds.routes, host);
    var n := if i < |ds.routes| then t.routeSeq else t.routeSeq + 1;
    var made := Route(Ids.Route(n), environment, host, "/", upstream, deploymentId, healthCheckPath);
    var ds' := ds.(routes := Upserted(ds.routes, made));
    (t.(routeSeq := n, states := t.states[environment := ds']), ds'.routes[i].id)
  }

  /** An upsert of a host that is served already redirects its route. */
  lemma UpsertRedirects(t: Tables, environment: string, host: string, upstream: string, deploymentId: string,
                        healthCheckPath: string)
    requires HostIndex(RoutesOf(t, environment), host) < |RoutesOf(t, environment)|
    ensures var rs := RoutesOf(t, environment);
            var i := HostIndex(rs, host);
            Upsert(t, environment, host, upstream, deploymentId, healthCheckPath) ==
            (WithRoutes(t, environment, rs[i := rs[i].(upstream := upstream, deploymentId := deploymentId)]), rs[i].id)
  {
  }

  lemma UpsertKeepsDeployments(t: Tables, environment: string, host: string, upstream: string, deploymentId: string,
                               healthCheckPath: string)
    ensures Upsert(t, environment, host, upstream, deploymentId, healthCheckPath).0.deployments == t.deployments
  {
  }

  function RemoveRoute(t: Tables, environment: string, routeId: string): Tables {
    if environment !in t.states then t
    else
      var ds := t.states[environment];
      t.(states := t.states[environment := ds.(routes := Without(ds.routes, routeId))])
  }

  function Increment(t: Tables, environment: string): Tables {
    var ds := Get(t, environment);
    t.(states := t.states[environment := ds.(version := ds.version + 1)],
       versionSeq := t.versionSeq[environment := ds.version + 1])
  }

  lemma WithdrawKeepsDeployments(t: Tables, environment: string, routeId: string)
    ensures Increment(RemoveRoute(t, environment, routeId), environment).deployments == t.deployments
  {
  }

  function WithVersion(t: Tables, environment: string, version: nat): Tables {
    t.(versionSeq := t.versionSeq[environment := version])
  }

  function CountRoute(t: Tables): Tables { t.(routeSeq := t.routeSeq + 1) }

  /** Get or create, then raise the version and record it: this is an increment. */
  lemma IncrementSteps(t: Tables, environment: string)
    ensures var ds := Get(t, environment);
            var t' := WithState(t, environment, ds);
            && Get(t', environment) == ds
            && WithVersion(WithState(t', environment, ds.(version := ds.version + 1)), environment, ds.version + 1) ==
               Increment(t, environment)
  {
  }

  /** Storing what Get answers changes no answer. */
  lemma StoreInitial(t: Tables, environment: string, ds: DesiredState)
    ensures var t' := WithState(t, environment, Get(t, environment));
            && Get(t', environment) == Get(t, environment)
            && WithState(t', environment, ds) == WithState(t, environment, ds)
  {
  }

  /** Count, then append: this is the upsert of a new host. */
  lemma UpsertSteps(t: Tables, environment: string, host: string, upstream: string, deploymentId: string,
                    healthCheckPath: string)
    requires HostIndex(RoutesOf(t, environment), host) == |RoutesOf(t, environment)|
    ensures var made := Route(Ids.Route(t.routeSeq + 1), environment, host, "/", upstream, deploymentId, healthCheckPath);
            && RoutesOf(CountRoute(t), environment) == RoutesOf(t, environment)
            && (WithRoutes(CountRoute(t), environment, RoutesOf(t, environment) + [made]), made.id) ==
               Upsert(t, environment, host, upstream, deploymentId, healthCheckPath)
  {
  }

  // ---- effects ----

  /** What a store operation does to the tables. */
  datatype Effect =
    | Nothing
    | Creates(info: DeploymentInfo, commandId: string)
    | Starts(dep: string, at: Time)
    | Fails(dep: string, at: Time)
    | Deploys(dep: string, ip: string, port: int, at: Time)
    | Stops(dep: string, at: Time)
    | Removes(dep: string, at: Time)
    | Judges(environment: string, applied: bool, at: Time)

  predicate Routed(d: Deployment) { d.info.requiresRoute && d.info.host != "" }

  /** Deployment k belongs to the environment. */
  predicate Within(t: Tables, k: string, environment: string) {
    k in t.deployments && t.deployments[k].info.environment == environment
  }

  /** A deployment just after it has been linked to its command. */
  function NewDeployment(info: DeploymentInfo, commandId: string): Deployment {
    Deployment(info, CommandCreated, commandId, "", 0, "", info.createdAt)
  }

  /** A deployment as it is first filed, before it is linked to its command. */
  function Requesting(info: DeploymentInfo): Deployment {
    Deployment(info, Requested, "", "", 0, "", info.createdAt)
  }

  function File(t: Tables, info: DeploymentInfo): Tables {
    t.(deploymentSeq := t.deploymentSeq + 1, deployments := t.deployments[info.id := Requesting(info)])
  }

  function Create(t: Tables, info: DeploymentInfo, commandId: string): Tables {
    t.(deploymentSeq := t.deploymentSeq + 1,
       deployments := t.deployments[info.id := NewDeployment(info, commandId)])
  }

  /** File, then link: this is a creation. */
  lemma CreateSteps(t: Tables, info: DeploymentInfo, commandId: string)
    ensures var d := Requesting(info);
            Put(File(t, info), info.id, d.(commandId := commandId, status := CommandCreated, updatedAt := info.createdAt)) ==
            Create(t, info, commandId)
  {
    var d := Requesting(info);
    assert t.deployments[info.id := d][info.id := NewDeployment(info, commandId)] ==
           t.deployments[info.id := NewDeployment(info, commandId)];
  }

  function Put(t: Tables, id: string, d: Deployment): Tables {
    t.(deployments := t.deployments[id := d])
  }

  /** Moves a deployment on, when it is in the expected status. */
  function Advance(t: Tables, id: string, from: DeploymentStatus, to: DeploymentStatus, at: Time): Tables {
    if id in t.deployments && t.deployments[id].status == from
    then Put(t, id, t.deployments[id].(status := to, updatedAt := at))
    else t
  }

  function Deploy(t: Tables, id: string, ip: string, port: int, at: Time): Tables {
    if id !in t.deployments then t
    else
      var d := t.deployments[id].(runtimePrivateIP := ip, hostPort := port, status := Healthy, updatedAt := at);
      if Routed(d) then
        var (t1, routeId) := Upsert(t, d.info.environment, d.info.host, Ids.BuildUpstream(ip, port), id, d.info.healthCheckPath);
        Increment(Put(t1, id, d.(routeId := routeId, status := RoutePending)), d.info.environment)
      else Put(t, id, d)
  }

  /** The deployment may be written before its route is upserted as well. */
  lemma DeploySteps(t: Tables, id: string, ip: string, port: int, at: Time)
    requires id in t.deployments && Routed(t.deployments[id])
    ensures var d := t.deployments[id].(runtimePrivateIP := ip, hostPort := port, status := Healthy, updatedAt := at);
            var (t2, routeId) := Upsert(Put(t, id, d), d.info.environment, d.info.host, Ids.BuildUpstream(ip, port), id,
                                        d.info.healthCheckPath);
            Deploy(t, id, ip, port, at) ==
            Increment(Put(t2, id, d.(routeId := routeId, status := RoutePending)), d.info.environment)
  {
    var d := t.deployments[id].(runtimePrivateIP := ip, hostPort := port, status := Healthy, updatedAt := at);
    var (t1, routeId) := Upsert(t, d.info.environment, d.info.host, Ids.BuildUpstream(ip, port), id, d.info.healthCheckPath);
    var d' := d.(routeId := routeId, status := RoutePending);
    assert t.deployments[id := d][id := d'] == t.deployments[id := d'];
  }

  function Stop(t: Tables, id: string, at: Time): Tables {
    if id in t.deployments then Put(t, id, t.deployments[id].(status := Removed, updatedAt := at)) else t
  }

  function Remove(t: Tables, id: string, at: Time): Tables {
    if id !in t.deployments then t
    else
      var d := t.deployments[id].(status := Removed, updatedAt := at);
      if d.routeId == "" then Put(t, id, d)
      else
        Increment(RemoveRoute(Put(t, id, d.(routeId := "")), d.info.environment, d.routeId), d.info.environment)
  }

  /** The deployment may give up its route id last as well. */
  lemma RemoveSteps(t: Tables, id: string, at: Time)
    requires id in t.deployments && t.deployments[id].routeId != ""
    ensures var d := t.deployments[id].(status := Removed, updatedAt := at);
            var t2 := Increment(RemoveRoute(Put(t, id, d), d.info.environment, d.routeId), d.info.environment);
            Remove(t, id, at) == Put(t2, id, d.(routeId := ""))
  {
    var d := t.deployments[id].(status := Removed, updatedAt := at);
    var d' := d.(routeId := "");
    assert t.deployments[id := d][id := d'] == t.deployments[id := d'];
  }

  function StatusFor(applied: bool): DeploymentStatus { if applied then RouteActive else RouteFailed }

  function Judged(d: Deployment, environment: string, applied: bool, at: Time): Deployment {
    if d.info.environment == environment && d.status == RoutePending
    then d.(status := StatusFor(applied), updatedAt := at)
    else d
  }

  function Judge(t: Tables, environment: string, applied: bool, at: Time): Tables {
    t.(deployments := map k | k in t.deployments :: Judged(t.deployments[k], environment, applied, at))
  }

  function Apply(t: Tables, e: Effect): Tables {
    match e
    case Nothing => t
    case Creates(info, commandId) => Create(t, info, commandId)
    case Starts(dep, at) => Advance(t, dep, CommandCreated, Deploying, at)
    case Fails(dep, at) => Advance(t, dep, Deploying, DeployFailed, at)
    case Deploys(dep, ip, port, at) => Deploy(t, dep, ip, port, at)
    case Stops(dep, at) => Stop(t, dep, at)
    case Removes(dep, at) => Remove(t, dep, at)
    case Judges(env, applied, at) => Judge(t, env, applied, at)
  }

  /** A new deployment takes the next id. */
  predicate Enabled(t: Tables, e: Effect) {
    e.Creates? ==> e.info.id == Ids.Deployment(t.deploymentSeq + 1)
  }
}