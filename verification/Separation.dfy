/** Environments do not interfere: an effect reads and writes one environment
    only, and effects in different environments commute up to the numbers of
    the routes they create. */
module Separation {
  import opened Base
  import opened Routing
  import opened RoutingInvariant
  import Ids
  import MI = MachineInvariant

  /** The environment an effect works in, if it does anything at all. */
  function Place(t: Tables, e: Effect): Option<string> {
    match e
    case Nothing => None
    case Creates(info, _) => Some(info.environment)
    case Judges(env, _, _) => Some(env)
    case _ => if e.dep in t.deployments then Some(t.deployments[e.dep].info.environment) else None
  }

  /** t and t' agree on everything that belongs to env. */
  ghost predicate SameIn(t: Tables, t': Tables, env: string) {
    && (forall k :: Within(t, k, env) <==> Within(t', k, env))
    && (forall k | Within(t, k, env) :: t'.deployments[k] == t.deployments[k])
    && (env in t.states <==> env in t'.states) && Get(t, env) == Get(t', env)
  }

  // ---- an effect as a patch ----

  /** The entries an effect writes. */
  datatype Patch = Patch(
    deployments: map<string, Deployment>, states: map<string, DesiredState>, versions: map<string, nat>, newRoute: bool)

  const NO_PATCH := Patch(map[], map[], map[], false)

  function Patched(t: Tables, p: Patch): Tables {
    Tables(t.deployments + p.deployments, t.states + p.states, t.deploymentSeq,
           if p.newRoute then t.routeSeq + 1 else t.routeSeq, t.versionSeq + p.versions)
  }

  function OnePatch(id: string, d: Deployment): Patch { NO_PATCH.(deployments := map[id := d]) }

  function RewritePatch(id: string, d: Deployment, env: string, ds: DesiredState, newRoute: bool): Patch {
    Patch(map[id := d], map[env := ds], map[env := ds.version], newRoute)
  }

  function Moved(d: Deployment, from: DeploymentStatus, to: DeploymentStatus, at: Time): Deployment {
    if d.status == from then d.(status := to, updatedAt := at) else d
  }

  /** What a deploy success writes when the next new route gets number n. */
  function DeployPatch(t: Tables, dep: string, ip: string, port: int, at: Time, n: nat): Patch
    requires dep in t.deployments
  {
    var d := t.deployments[dep].(runtimePrivateIP := ip, hostPort := port, status := Healthy, updatedAt := at);
    if !Routed(d) then OnePatch(dep, d)
    else
      var env, rs := d.info.environment, RoutesOf(t, d.info.environment);
      var made := Route(Ids.Route(n), env, d.info.host, "/", Ids.BuildUpstream(ip, port), dep, d.info.healthCheckPath);
      RewritePatch(dep, d.(status := RoutePending, routeId := Served(rs, made).id), env,
                   Get(t, env).(version := VersionOf(t, env) + 1, routes := Upserted(rs, made)),
                   HostIndex(rs, d.info.host) == |rs|)
  }

  function RemovePatch(t: Tables, dep: string, at: Time): Patch
    requires dep in t.deployments
  {
    var d := t.deployments[dep].(status := Removed, updatedAt := at);
    if d.routeId == "" then OnePatch(dep, d)
    else
      var env := d.info.environment;
      RewritePatch(dep, d.(routeId := ""), env,
                   Get(t, env).(version := VersionOf(t, env) + 1, routes := Without(RoutesOf(t, env), d.routeId)), false)
  }

  function JudgePatch(t: Tables, env: string, applied: bool, at: Time): Patch {
    NO_PATCH.(deployments := map k | k in t.deployments && Within(t, k, env) :: Judged(t.deployments[k], env, applied, at))
  }

  /** What e writes when the next new route gets number n. */
  function PatchOf(t: Tables, e: Effect, n: nat): Patch {
    match e
    case Nothing => NO_PATCH
    case Creates(_, _) => NO_PATCH
    case Judges(env, applied, at) => JudgePatch(t, env, applied, at)
    case Starts(dep, at) =>
      if dep in t.deployments then OnePatch(dep, Moved(t.deployments[dep], CommandCreated, Deploying, at)) else NO_PATCH
    case Fails(dep, at) =>
      if dep in t.deployments then OnePatch(dep, Moved(t.deployments[dep], Deploying, DeployFailed, at)) else NO_PATCH
    case Deploys(dep, ip, port, at) =>
      if dep in t.deployments then DeployPatch(t, dep, ip, port, at, n) else NO_PATCH
    case Stops(dep, at) =>
      if dep in t.deployments then OnePatch(dep, t.deployments[dep].(status := Removed, updatedAt := at)) else NO_PATCH
    case Removes(dep, at) => if dep in t.deployments then RemovePatch(t, dep, at) else NO_PATCH
  }

  lemma PlusOne<K, V>(m: map<K, V>, k: K, v: V)
    ensures m + map[k := v] == m[k := v]
  {
  }

  lemma PlusNone<K, V>(m: map<K, V>)
    ensures m + map[] == m
  {
  }

  lemma NoPatchSame(t: Tables)
    ensures Patched(t, NO_PATCH) == t
  {
    PlusNone(t.deployments);
    PlusNone(t.states);
    PlusNone(t.versionSeq);
  }

  lemma OnePatchPuts(t: Tables, id: string, d: Deployment)
    ensures Patched(t, OnePatch(id, d)) == Put(t, id, d)
  {
    PlusOne(t.deployments, id, d);
    PlusNone(t.states);
    PlusNone(t.versionSeq);
  }

  lemma RewritePatchWrites(t: Tables, id: string, d: Deployment, env: string, ds: DesiredState, newRoute: bool)
    ensures Patched(t, RewritePatch(id, d, env, ds, newRoute)) ==
            Tables(t.deployments[id := d], t.states[env := ds], t.deploymentSeq,
                   if newRoute then t.routeSeq + 1 else t.routeSeq, t.versionSeq[env := ds.version])
  {
    PlusOne(t.deployments, id, d);
    PlusOne(t.states, env, ds);
    PlusOne(t.versionSeq, env, ds.version);
  }

  lemma MovedPuts(t: Tables, id: string, from: DeploymentStatus, to: DeploymentStatus, at: Time)
    requires id in t.deployments
    ensures Patched(t, OnePatch(id, Moved(t.deployments[id], from, to, at))) == Advance(t, id, from, to, at)
  {
    OnePatchPuts(t, id, Moved(t.deployments[id], from, to, at));
    assert t.deployments[id := t.deployments[id]] == t.deployments;
  }

  lemma JudgePatchJudges(t: Tables, env: string, applied: bool, at: Time)
    ensures Patched(t, JudgePatch(t, env, applied, at)) == Judge(t, env, applied, at)
  {
    assert t.deployments + JudgePatch(t, env, applied, at).deployments == Judge(t, env, applied, at).deployments;
    PlusNone(t.states);
    PlusNone(t.versionSeq);
  }

  lemma DeployPatchDeploys(t: Tables, dep: string, ip: string, port: int, at: Time)
    requires dep in t.deployments
    ensures Patched(t, DeployPatch(t, dep, ip, port, at, t.routeSeq + 1)) == Deploy(t, dep, ip, port, at)
  {
    hide Get;
    var p := DeployPatch(t, dep, ip, port, at, t.routeSeq + 1);
    var env := t.deployments[dep].info.environment;
    if Routed(t.deployments[dep]) {
      DeployShape(t, dep, ip, port, at);
      RewritePatchWrites(t, dep, p.deployments[dep], env, p.states[env], p.newRoute);
    } else {
      OnePatchPuts(t, dep, p.deployments[dep]);
    }
  }

  lemma RemovePatchRemoves(t: Tables, dep: string, at: Time)
    requires dep in t.deployments && (t.deployments[dep].routeId != "" ==> t.deployments[dep].info.environment in t.states)
    ensures Patched(t, RemovePatch(t, dep, at)) == Remove(t, dep, at)
  {
    var p := RemovePatch(t, dep, at);
    var env := t.deployments[dep].info.environment;
    if t.deployments[dep].routeId != "" {
      RemoveShape(t, dep, at);
      RewritePatchWrites(t, dep, p.deployments[dep], env, p.states[env], p.newRoute);
    } else {
      OnePatchPuts(t, dep, p.deployments[dep]);
    }
  }

  /** Applying an effect is writing its patch. */
  lemma ApplyIsPatch(t: Tables, e: Effect)
    requires HeldIssued(t) && !e.Creates?
    ensures Apply(t, e) == Patched(t, PatchOf(t, e, t.routeSeq + 1))
  {
    NoPatchSame(t);
    match e
    case Nothing =>
    case Judges(env, applied, at) => JudgePatchJudges(t, env, applied, at);
    case Starts(dep, at) => if dep in t.deployments { MovedPuts(t, dep, CommandCreated, Deploying, at); }
    case Fails(dep, at) => if dep in t.deployments { MovedPuts(t, dep, Deploying, DeployFailed, at); }
    case Deploys(dep, ip, port, at) => if dep in t.deployments { DeployPatchDeploys(t, dep, ip, port, at); }
    case Stops(dep, at) =>
      if dep in t.deployments { OnePatchPuts(t, dep, t.deployments[dep].(status := Removed, updatedAt := at)); }
    case Removes(dep, at) => if dep in t.deployments { RemovePatchRemoves(t, dep, at); }
  }

  // ---- locality ----

  /** A patch depends on its own environment only. */
  lemma PatchIsLocal(t: Tables, t': Tables, e: Effect, n: nat)
    requires !e.Creates? && Place(t, e).Some? && SameIn(t, t', Place(t, e).value)
    ensures Place(t', e) == Place(t, e) && PatchOf(t', e, n) == PatchOf(t, e, n)
  {
    var env := Place(t, e).value;
    if e.Judges? {
      JudgePatchIsLocal(t, t', env, e.applied, e.at);
    } else {
      assert Within(t, e.dep, env) && Within(t', e.dep, env);
      hide JudgePatch, DeployPatch, OnePatch, RewritePatch, Moved;
      if e.Deploys? {
        DeployPatchIsLocal(t, t', e.dep, e.ip, e.port, e.at, n);
      }
    }
  }

  lemma JudgePatchIsLocal(t: Tables, t': Tables, env: string, applied: bool, at: Time)
    requires SameIn(t, t', env)
    ensures JudgePatch(t', env, applied, at) == JudgePatch(t, env, applied, at)
  {
    assert forall k :: Within(t, k, env) <==> Within(t', k, env);
    hide Judged;
  }

  lemma DeployPatchIsLocal(t: Tables, t': Tables, dep: string, ip: string, port: int, at: Time, n: nat)
    requires dep in t.deployments && SameIn(t, t', t.deployments[dep].info.environment)
    ensures dep in t'.deployments && DeployPatch(t', dep, ip, port, at, n) == DeployPatch(t, dep, ip, port, at, n)
  {
    var env := t.deployments[dep].info.environment;
    assert Within(t, dep, env) && Within(t', dep, env);
    assert t'.deployments[dep] == t.deployments[dep] && Get(t', env) == Get(t, env);
    hide SameIn, Within, Get, HostIndex, Upserted, Served, OnePatch, RewritePatch;
  }

  /** p writes entries of env only, and changes no deployment's place. */
  ghost predicate Confined(t: Tables, p: Patch, env: string) {
    && (forall k | k in p.deployments :: Within(t, k, env) && p.deployments[k].info == t.deployments[k].info)
    && p.states.Keys <= {env} && p.versions.Keys <= {env}
  }

  lemma PatchConfined(t: Tables, e: Effect, n: nat)
    requires !e.Creates? && Place(t, e).Some?
    ensures Confined(t, PatchOf(t, e, n), Place(t, e).value)
  {
  }

  lemma ConfinedElsewhere(t: Tables, p: Patch, env: string, other: string)
    requires Confined(t, p, env) && env != other
    ensures SameIn(t, Patched(t, p), other)
  {
  }

  lemma NoPlaceNoChange(t: Tables, e: Effect)
    requires !e.Creates? && Place(t, e).None?
    ensures Apply(t, e) == t
  {
  }

  lemma CreateElsewhere(t: Tables, info: DeploymentInfo, commandId: string, other: string)
    requires info.id !in t.deployments && info.environment != other
    ensures SameIn(t, Create(t, info, commandId), other)
  {
  }

  /** An effect leaves every other environment exactly as it is. */
  lemma OthersUntouched(t: Tables, e: Effect, other: string)
    requires Inv(t) && Enabled(t, e) && Place(t, e) != Some(other)
    ensures SameIn(t, Apply(t, e), other)
  {
    if e.Creates? {
      CreateKeepsNew(t, e);
      CreateElsewhere(t, e.info, e.commandId, other);
    } else if Place(t, e).None? {
      NoPlaceNoChange(t, e);
    } else {
      ApplyIsPatch(t, e);
      PatchConfined(t, e, t.routeSeq + 1);
      ConfinedElsewhere(t, PatchOf(t, e, t.routeSeq + 1), Place(t, e).value, other);
    }
  }

  // ---- commuting ----

  lemma UnionCommutes<K, V>(m: map<K, V>, a: map<K, V>, b: map<K, V>)
    requires a.Keys !! b.Keys
    ensures m + a + b == m + b + a
  {
  }

  lemma PatchesCommute(t: Tables, p: Patch, q: Patch, env: string, other: string)
    requires Confined(t, p, env) && Confined(t, q, other) && env != other
    ensures Patched(Patched(t, p), q) == Patched(Patched(t, q), p)
  {
    UnionCommutes(t.deployments, p.deployments, q.deployments);
    UnionCommutes(t.states, p.states, q.states);
    UnionCommutes(t.versionSeq, p.versions, q.versions);
  }

  /** Two effects at work in different environments. */
  predicate Apart(t: Tables, a: Effect, b: Effect) {
    !a.Creates? && !b.Creates? && Place(t, a).Some? && Place(t, b).Some? && Place(t, a) != Place(t, b)
  }

  lemma ApartPatchesCommute(t: Tables, a: Effect, m: nat, b: Effect, n: nat)
    requires Apart(t, a, b)
    ensures var p, q := PatchOf(t, a, m), PatchOf(t, b, n);
            Patched(Patched(t, p), q) == Patched(Patched(t, q), p)
  {
    PatchConfined(t, a, m);
    PatchConfined(t, b, n);
    PatchesCommute(t, PatchOf(t, a, m), PatchOf(t, b, n), Place(t, a).value, Place(t, b).value);
  }

  /** The route number matters to a patch that creates a route only. */
  lemma NumberMattersToNewRoutes(t: Tables, e: Effect, m: nat, n: nat)
    requires !PatchOf(t, e, m).newRoute
    ensures PatchOf(t, e, n) == PatchOf(t, e, m)
  {
  }

  /** An effect writes the same patch after a patch of another environment. */
  lemma PatchLater(t: Tables, t': Tables, e: Effect, n: nat)
    requires HeldIssued(t') && !e.Creates? && Place(t, e).Some? && SameIn(t, t', Place(t, e).value) && n == t'.routeSeq + 1
    ensures Apply(t', e) == Patched(t', PatchOf(t, e, n))
  {
    PatchIsLocal(t, t', e, n);
    ApplyIsPatch(t', e);
  }

  lemma HeldAfter(t: Tables, e: Effect)
    requires Inv(t) && Enabled(t, e)
    ensures HeldIssued(Apply(t, e))
  {
    ApplyKeeps(t, e);
  }

  /** Two effects in different environments, applied in order. */
  lemma InOrder(t: Tables, a: Effect, b: Effect)
    requires Inv(t) && Apart(t, a, b)
    ensures var p := PatchOf(t, a, t.routeSeq + 1);
            Apply(Apply(t, a), b) ==
            Patched(Patched(t, p), PatchOf(t, b, if p.newRoute then t.routeSeq + 2 else t.routeSeq + 1))
  {
    ApplyIsPatch(t, a);
    HeldAfter(t, a);
    OthersUntouched(t, a, Place(t, b).value);
    var p := PatchOf(t, a, t.routeSeq + 1);
    PatchLater(t, Patched(t, p), b, if p.newRoute then t.routeSeq + 2 else t.routeSeq + 1);
  }

  predicate BothCreateRoutes(t: Tables, a: Effect, b: Effect) {
    PatchOf(t, a, t.routeSeq + 1).newRoute && PatchOf(t, b, t.routeSeq + 1).newRoute
  }

  lemma SecondPatchSame(t: Tables, a: Effect, b: Effect)
    requires !BothCreateRoutes(t, a, b)
    ensures var n := if PatchOf(t, a, t.routeSeq + 1).newRoute then t.routeSeq + 2 else t.routeSeq + 1;
            PatchOf(t, b, n) == PatchOf(t, b, t.routeSeq + 1)
  {
    if PatchOf(t, a, t.routeSeq + 1).newRoute {
      NumberMattersToNewRoutes(t, b, t.routeSeq + 1, t.routeSeq + 2);
    }
  }

  /** Effects in different environments commute exactly, unless both create a
      route: then they commute up to exchanging the two new route ids. */
  lemma EffectsCommute(t: Tables, a: Effect, b: Effect)
    requires Inv(t) && Apart(t, a, b)
    requires !BothCreateRoutes(t, a, b)
    ensures Apply(Apply(t, a), b) == Apply(Apply(t, b), a)
  {
    InOrder(t, a, b);
    InOrder(t, b, a);
    SecondPatchSame(t, a, b);
    SecondPatchSame(t, b, a);
    ApartPatchesCommute(t, a, t.routeSeq + 1, b, t.routeSeq + 1);
  }

  lemma CreatePatched(t: Tables, p: Patch, info: DeploymentInfo, commandId: string)
    requires info.id !in p.deployments
    ensures Create(Patched(t, p), info, commandId) == Patched(Create(t, info, commandId), p)
  {
    assert (t.deployments + p.deployments).Keys == t.deployments.Keys + p.deployments.Keys;
    var d := NewDeployment(info, commandId);
    assert (t.deployments + p.deployments)[info.id := d] == t.deployments[info.id := d] + p.deployments;
  }

  /** Creating a deployment commutes with every effect in another environment. */
  lemma CreationCommutes(t: Tables, info: DeploymentInfo, commandId: string, e: Effect)
    requires Inv(t) && Enabled(t, Creates(info, commandId)) && !e.Creates?
    requires Place(t, e).Some? && Place(t, e) != Some(info.environment)
    ensures Apply(Create(t, info, commandId), e) == Create(Apply(t, e), info, commandId)
  {
    var p := PatchOf(t, e, t.routeSeq + 1);
    CreateKeeps(t, info, commandId);
    ApplyIsPatch(t, e);
    PatchConfined(t, e, t.routeSeq + 1);
    CreateElsewhere(t, info, commandId, Place(t, e).value);
    CreateLater(t, info, commandId, e);
    CreatePatched(t, p, info, commandId);
  }

  lemma CreateLater(t: Tables, info: DeploymentInfo, commandId: string, e: Effect)
    requires Inv(t) && Enabled(t, Creates(info, commandId)) && !e.Creates? && Place(t, e).Some?
    requires SameIn(t, Create(t, info, commandId), Place(t, e).value)
    ensures Apply(Create(t, info, commandId), e) == Patched(Create(t, info, commandId), PatchOf(t, e, t.routeSeq + 1))
  {
    HeldAfter(t, Creates(info, commandId));
    PatchLater(t, Create(t, info, commandId), e, t.routeSeq + 1);
  }

  // ---- exchanging two route ids ----

  function Swap(x: string, y: string, id: string): string {
    if id == x then y else if id == y then x else id
  }

  function SwapRoutes(x: string, y: string, rs: seq<Route>): seq<Route> {
    seq(|rs|, i requires 0 <= i < |rs| => rs[i].(id := Swap(x, y, rs[i].id)))
  }

  function SwapStates(x: string, y: string, m: map<string, DesiredState>): map<string, DesiredState> {
    map e | e in m :: m[e].(routes := SwapRoutes(x, y, m[e].routes))
  }

  function SwapDeployments(x: string, y: string, m: map<string, Deployment>): map<string, Deployment> {
    map k | k in m :: m[k].(routeId := Swap(x, y, m[k].routeId))
  }

  /** The tables with two route ids exchanged everywhere. */
  function Swapped(x: string, y: string, t: Tables): Tables {
    t.(deployments := SwapDeployments(x, y, t.deployments), states := SwapStates(x, y, t.states))
  }

  function SwappedPatch(x: string, y: string, p: Patch): Patch {
    p.(deployments := SwapDeployments(x, y, p.deployments), states := SwapStates(x, y, p.states))
  }

  lemma SwapDeploymentsUnion(x: string, y: string, m: map<string, Deployment>, p: map<string, Deployment>)
    ensures SwapDeployments(x, y, m + p) == SwapDeployments(x, y, m) + SwapDeployments(x, y, p)
  {
  }

  lemma SwapStatesUnion(x: string, y: string, m: map<string, DesiredState>, p: map<string, DesiredState>)
    ensures SwapStates(x, y, m + p) == SwapStates(x, y, m) + SwapStates(x, y, p)
  {
  }

  lemma SwapPatched(x: string, y: string, t: Tables, p: Patch)
    ensures Swapped(x, y, Patched(t, p)) == Patched(Swapped(x, y, t), SwappedPatch(x, y, p))
  {
    SwapDeploymentsUnion(x, y, t.deployments, p.deployments);
    SwapStatesUnion(x, y, t.states, p.states);
  }

  /** Ids that have not been issued yet occur nowhere. */
  lemma UnissuedRoutes(t: Tables, e: string, x: string, y: string)
    requires Inv(t)
    requires x !in Ids.Issued(Ids.RouteKind, t.routeSeq) && y !in Ids.Issued(Ids.RouteKind, t.routeSeq)
    ensures SwapRoutes(x, y, RoutesOf(t, e)) == RoutesOf(t, e)
  {
    forall i | 0 <= i < |RoutesOf(t, e)|
      ensures Swap(x, y, RoutesOf(t, e)[i].id) == RoutesOf(t, e)[i].id
    {
      OwnedIdIssued(t, e, RoutesOf(t, e)[i]);
    }
  }

  lemma UnissuedStates(t: Tables, x: string, y: string)
    requires Inv(t)
    requires x !in Ids.Issued(Ids.RouteKind, t.routeSeq) && y !in Ids.Issued(Ids.RouteKind, t.routeSeq)
    ensures SwapStates(x, y, t.states) == t.states
  {
    hide Inv, SwapRoutes, Ids.Issued;
    forall e | e in t.states
      ensures SwapRoutes(x, y, t.states[e].routes) == t.states[e].routes
    {
      UnissuedRoutes(t, e, x, y);
    }
  }

  lemma UnissuedDeployments(t: Tables, x: string, y: string)
    requires HeldIssued(t) && x != "" && y != ""
    requires x !in Ids.Issued(Ids.RouteKind, t.routeSeq) && y !in Ids.Issued(Ids.RouteKind, t.routeSeq)
    ensures SwapDeployments(x, y, t.deployments) == t.deployments
  {
    hide Ids.Issued;
  }

  lemma UnissuedTables(t: Tables, x: string, y: string)
    requires Inv(t) && x != "" && y != ""
    requires x !in Ids.Issued(Ids.RouteKind, t.routeSeq) && y !in Ids.Issued(Ids.RouteKind, t.routeSeq)
    ensures Swapped(x, y, t) == t
  {
    hide Keyed, Versioned, HostsUnique, Owned, HeldIssued, HeldAgree, StatusesOk, SwapStates, SwapDeployments, Ids.Issued;
    UnissuedStates(t, x, y);
    UnissuedDeployments(t, x, y);
  }

  // ---- two effects that both create a route ----

  function MadeAs(d: Deployment, e: Effect, n: nat): Route
    requires e.Deploys?
  {
    Route(Ids.Route(n), d.info.environment, d.info.host, "/", Ids.BuildUpstream(e.ip, e.port), e.dep, d.info.healthCheckPath)
  }

  /** What a deploy success writes when it creates route number n. */
  function NewRoutePatch(t: Tables, e: Effect, n: nat): Patch
    requires e.Deploys? && e.dep in t.deployments
  {
    var d := t.deployments[e.dep];
    var env := d.info.environment;
    RewritePatch(
      e.dep,
      d.(runtimePrivateIP := e.ip, hostPort := e.port, status := RoutePending, updatedAt := e.at, routeId := Ids.Route(n)), env,
      Get(t, env).(version := VersionOf(t, env) + 1, routes := RoutesOf(t, env) + [MadeAs(d, e, n)]), true)
  }

  lemma NewRoutePatchOf(t: Tables, e: Effect, m: nat, n: nat)
    requires PatchOf(t, e, m).newRoute
    ensures e.Deploys? && e.dep in t.deployments && PatchOf(t, e, n) == NewRoutePatch(t, e, n)
  {
  }

  lemma AddedSwaps(rs: seq<Route>, x: string, y: string, r: Route, r': Route)
    requires SwapRoutes(x, y, rs) == rs && r' == r.(id := Swap(x, y, r.id))
    ensures SwapRoutes(x, y, rs + [r]) == rs + [r']
  {
    assert forall i | 0 <= i < |rs| :: SwapRoutes(x, y, rs)[i] == rs[i];
  }

  lemma RewriteSwaps(x: string, y: string, id: string, d: Deployment, env: string, ds: DesiredState)
    ensures SwappedPatch(x, y, RewritePatch(id, d, env, ds, true)) ==
            RewritePatch(id, d.(routeId := Swap(x, y, d.routeId)), env, ds.(routes := SwapRoutes(x, y, ds.routes)), true)
  {
  }

  /** A patch that creates a route depends on its number in that id only. */
  lemma NewRoutePatchSwaps(t: Tables, e: Effect, m: nat, n: nat, x: string, y: string)
    requires Inv(t) && e.Deploys? && e.dep in t.deployments && Swap(x, y, Ids.Route(m)) == Ids.Route(n)
    requires x !in Ids.Issued(Ids.RouteKind, t.routeSeq) && y !in Ids.Issued(Ids.RouteKind, t.routeSeq)
    ensures SwappedPatch(x, y, NewRoutePatch(t, e, m)) == NewRoutePatch(t, e, n)
  {
    hide Inv, Swap, SwapRoutes, SwappedPatch, RewritePatch, Get, VersionOf, RoutesOf, Ids.Route, Ids.Issued;
    var d := t.deployments[e.dep];
    var env := d.info.environment;
    var d' := d.(runtimePrivateIP := e.ip, hostPort := e.port, status := RoutePending, updatedAt := e.at,
                 routeId := Ids.Route(m));
    var ds := Get(t, env).(version := VersionOf(t, env) + 1, routes := RoutesOf(t, env) + [MadeAs(d, e, m)]);
    assert NewRoutePatch(t, e, m) == RewritePatch(e.dep, d', env, ds, true);
    UnissuedRoutes(t, env, x, y);
    AddedSwaps(RoutesOf(t, env), x, y, MadeAs(d, e, m), MadeAs(d, e, n));
    RewriteSwaps(x, y, e.dep, d', env, ds);
  }

  lemma NextTwoUnissued(n: nat)
    ensures Ids.Route(n + 1) !in Ids.Issued(Ids.RouteKind, n) && Ids.Route(n + 2) !in Ids.Issued(Ids.RouteKind, n)
    ensures Ids.Route(n + 1) != "" && Ids.Route(n + 2) != ""
  {
    Ids.NextIsFresh(Ids.RouteKind, n);
    Ids.NextIsFresh(Ids.RouteKind, n + 1);
    assert |Ids.Route(n + 1)| > 0 && |Ids.Route(n + 2)| > 0;
  }

  lemma SwappedOrder(t: Tables, x: string, y: string, p: Patch, q: Patch, p': Patch, q': Patch)
    requires Swapped(x, y, t) == t && SwappedPatch(x, y, p) == p' && SwappedPatch(x, y, q) == q'
    ensures Swapped(x, y, Patched(Patched(t, p), q)) == Patched(Patched(t, p'), q')
  {
    SwapPatched(x, y, t, p);
    SwapPatched(x, y, Patched(t, p), q);
  }

  lemma PatchSwaps(t: Tables, e: Effect, m: nat, n: nat, x: string, y: string)
    requires Inv(t) && PatchOf(t, e, t.routeSeq + 1).newRoute && Swap(x, y, Ids.Route(m)) == Ids.Route(n)
    requires x !in Ids.Issued(Ids.RouteKind, t.routeSeq) && y !in Ids.Issued(Ids.RouteKind, t.routeSeq)
    ensures SwappedPatch(x, y, PatchOf(t, e, m)) == PatchOf(t, e, n)
  {
    NewRoutePatchOf(t, e, t.routeSeq + 1, m);
    NewRoutePatchOf(t, e, t.routeSeq + 1, n);
    NewRoutePatchSwaps(t, e, m, n, x, y);
  }

  lemma NewRoutesSwap(t: Tables, a: Effect, b: Effect, n: nat)
    requires Inv(t) && n == t.routeSeq + 1 && PatchOf(t, a, n).newRoute && PatchOf(t, b, n).newRoute
    ensures Swapped(Ids.Route(n), Ids.Route(n + 1), Patched(Patched(t, PatchOf(t, a, n)), PatchOf(t, b, n + 1))) ==
            Patched(Patched(t, PatchOf(t, a, n + 1)), PatchOf(t, b, n))
  {
    var x, y := Ids.Route(n), Ids.Route(n + 1);
    NextTwoUnissued(t.routeSeq);
    PatchSwaps(t, a, n, n + 1, x, y);
    PatchSwaps(t, b, n + 1, n, x, y);
    UnissuedTables(t, x, y);
    SwappedOrder(t, x, y, PatchOf(t, a, n), PatchOf(t, b, n + 1), PatchOf(t, a, n + 1), PatchOf(t, b, n));
  }

  /** Effects in different environments that both create a route commute up to
      exchanging the two new ids, everywhere they occur. */
  lemma NewRoutesCommute(t: Tables, a: Effect, b: Effect)
    requires Inv(t) && Apart(t, a, b)
    requires BothCreateRoutes(t, a, b)
    ensures Apply(Apply(t, b), a) == Swapped(Ids.Route(t.routeSeq + 1), Ids.Route(t.routeSeq + 2), Apply(Apply(t, a), b))
  {
    InOrder(t, a, b);
    InOrder(t, b, a);
    NewRoutesSwap(t, a, b, t.routeSeq + 1);
    ApartPatchesCommute(t, a, t.routeSeq + 2, b, t.routeSeq + 1);
  }

  /** t' is t, up to exchanging the next two new route ids after base. */
  ghost predicate SameUpToNewIds(base: nat, both: bool, t: Tables, t': Tables) {
    t' == if both then Swapped(Ids.Route(base + 1), Ids.Route(base + 2), t) else t
  }

  lemma AllEffectsCommute(t: Tables, a: Effect, b: Effect)
    requires Inv(t) && Apart(t, a, b)
    ensures SameUpToNewIds(t.routeSeq, BothCreateRoutes(t, a, b), Apply(Apply(t, a), b), Apply(Apply(t, b), a))
  {
    if BothCreateRoutes(t, a, b) {
      NewRoutesCommute(t, a, b);
    } else {
      EffectsCommute(t, a, b);
    }
  }
}
