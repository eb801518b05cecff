/** Runs in which no two routed deployments of an environment share a host: the
    route table is then a function of the deployment table. */
module SharedHosts {
  import opened Base
  import opened Routing
  import opened RoutingInvariant
  import opened RouteOwnership
  import opened History
  import M = Machine
  import MI = MachineInvariant
  import Ids

  /** The route of a deployment that shares its host with no other. */
  function RouteFor(d: Deployment): Route {
    Route(d.routeId, d.info.environment, d.info.host, "/", Ids.BuildUpstream(d.runtimePrivateIP, d.hostPort), d.info.id,
          d.info.healthCheckPath)
  }

  ghost predicate OwnPath(t: Tables, r: Route) {
    r.deploymentId in t.deployments && r.healthCheckPath == t.deployments[r.deploymentId].info.healthCheckPath
  }

  /** Every published route of the environment carries its owner's health check
      path. */
  ghost predicate PathsOwnIn(t: Tables, e: string) {
    forall r | r in RoutesOf(t, e) :: OwnPath(t, r)
  }

  /** No route for the host belongs to another deployment. */
  lemma OnlyOwnRoute(t: Tables, id: string, e: string, q: Route)
    requires Inv(t) && NoSharingIn(t, e) && PathsOwnIn(t, e) && Within(t, id, e) && Routed(t.deployments[id])
    requires q in RoutesOf(t, e) && q.host == t.deployments[id].info.host
    ensures q.deploymentId == id && q.healthCheckPath == t.deployments[id].info.healthCheckPath
  {
    assert OwnedIn(t, e, q) && OwnPath(t, q);
    assert Within(t, q.deploymentId, e);
    assert q.deploymentId != id ==> !Shares(t.deployments[q.deploymentId], t.deployments[id]);
  }

  lemma DeployKeepsPaths(t: Tables, id: string, ip: string, port: int, at: Time, e: string)
    requires Inv(t) && NoSharingIn(t, e) && PathsOwnIn(t, e) && id in t.deployments && Routed(t.deployments[id])
    ensures PathsOwnIn(Deploy(t, id, ip, port, at), e)
  {
    hide Owned, StatusesOk, Deploy;
    var d, t' := t.deployments[id], Deploy(t, id, ip, port, at);
    DeployPublishes(t, id, ip, port, at);
    hide Inv, NoSharingIn, Deploy;
    forall r | r in RoutesOf(t', e)
      ensures OwnPath(t', r)
    {
      if e == d.info.environment && r.host == d.info.host {
        forall q | q in RoutesOf(t, e) && q.host == d.info.host {
          OnlyOwnRoute(t, id, e, q);
        }
        HealthCheckPathIffNewOrSame(t, id, ip, port, at, r);
      } else {
        assert r in RoutesOf(t, e);
        assert OwnPath(t, r);
      }
    }
  }

  lemma WithdrawKeepsPaths(t: Tables, t': Tables, id: string, f: string, e: string)
    requires PathsOwnIn(t, e) && Withdraws(t, t', id, f)
    ensures PathsOwnIn(t', e)
  {
    forall r | r in RoutesOf(t', e)
      ensures OwnPath(t', r)
    {
      assert r in RoutesOf(t, e);
      assert OwnPath(t, r);
    }
  }

  lemma QuietKeepsPaths(t: Tables, t': Tables, e: string)
    requires PathsOwnIn(t, e) && MI.Quietly(t, t')
    ensures PathsOwnIn(t', e)
  {
    forall r | r in RoutesOf(t', e)
      ensures OwnPath(t', r)
    {
      assert r in RoutesOf(t, e);
      assert OwnPath(t, r);
    }
  }

  lemma PathsStep(t: Tables, e: Effect, f: string)
    requires Inv(t) && Enabled(t, e) && NoSharingIn(t, f) && PathsOwnIn(t, f)
    ensures PathsOwnIn(Apply(t, e), f)
  {
    hide Inv, NoSharingIn, PathsOwnIn, Deploy;
    if !MI.Bumps(t, e) {
      MI.QuietStep(t, e);
      QuietKeepsPaths(t, Apply(t, e), f);
    } else if e.Deploys? {
      DeployKeepsPaths(t, e.dep, e.ip, e.port, e.at, f);
    } else {
      RemoveStep(t, e);
      WithdrawKeepsPaths(t, Apply(t, e), e.dep, t.deployments[e.dep].info.environment, f);
    }
  }

  /** At position i no two routed deployments of the environment share a host. */
  ghost predicate Unshared(ss: seq<M.State>, i: nat, e: string) { i < |ss| && NoSharingIn(ss[i].tables, e) }

  /** At position i every holder of a route id in the environment owns its route. */
  ghost predicate Tidy(ss: seq<M.State>, i: nat, e: string) {
    i < |ss| && HoldersOwnIn(ss[i].tables, e) && PathsOwnIn(ss[i].tables, e)
  }

  lemma TidyStep(ss: seq<M.State>, ops: seq<M.Op>, i: nat, e: string)
    requires Trace(ss, ops) && i < |ops| && Unshared(ss, i, e) && Tidy(ss, i, e)
    ensures Tidy(ss, i + 1, e)
  {
    hide LeadsThrough, Inv, Apply, NoSharingIn, HoldersOwnIn, PathsOwnIn;
    var effect := EffectAt(ss, ops, i);
    OwnersStep(ss[i].tables, effect, e);
    PathsStep(ss[i].tables, effect, e);
  }

  lemma UnsharedBefore(ss: seq<M.State>, ops: seq<M.Op>, i: nat, e: string)
    requires Trace(ss, ops) && i < |ops| && Unshared(ss, i + 1, e)
    ensures Unshared(ss, i, e)
  {
    hide LeadsThrough, Inv, Apply, NoSharingIn;
    var effect := EffectAt(ss, ops, i);
    NoSharingBefore(ss[i].tables, effect, e);
  }

  lemma InitialTidy(ss: seq<M.State>, e: string)
    requires ss != [] && ss[0] == M.INITIAL
    ensures Tidy(ss, 0, e)
  {
  }

  lemma {:induction false} TidyWhileUnshared(ss: seq<M.State>, ops: seq<M.Op>, j: nat, e: string)
    requires Trace(ss, ops) && ss[0] == M.INITIAL && j <= |ops| && Unshared(ss, j, e)
    ensures Tidy(ss, j, e)
  {
    hide LeadsThrough, Unshared, Tidy;
    if j == 0 {
      InitialTidy(ss, e);
    } else {
      UnsharedBefore(ss, ops, j - 1, e);
      TidyWhileUnshared(ss, ops, j - 1, e);
      TidyStep(ss, ops, j - 1, e);
    }
  }

  ghost predicate Holds(t: Tables, k: string, e: string, r: Route) {
    && k in t.deployments && t.deployments[k].routeId != "" && t.deployments[k].info.environment == e
    && r == RouteFor(t.deployments[k])
  }

  /** The published route is the owner's, field by field. */
  lemma OwnerDetermines(t: Tables, e: string, r: Route)
    requires Inv(t) && PathsOwnIn(t, e) && r in RoutesOf(t, e)
    ensures Holds(t, r.deploymentId, e, r)
  {
    assert OwnedIn(t, e, r) && OwnPath(t, r);
  }

  lemma HolderShows(t: Tables, k: string, e: string, r: Route)
    requires Inv(t) && PathsOwnIn(t, e) && HoldersOwnIn(t, e) && Holds(t, k, e, r)
    ensures r in RoutesOf(t, e)
  {
    assert Within(t, k, e) && OwnsRoute(t, k);
    var q :| q in RoutesOf(t, e) && q.id == t.deployments[k].routeId && q.deploymentId == k;
    OwnerDetermines(t, e, q);
  }

  /** As long as no two routed deployments of an environment share a host, its
      routes are exactly the routes of the deployments that hold a route id,
      whatever other environments do. */
  lemma TableFollowsDeployments(ss: seq<M.State>, ops: seq<M.Op>, j: nat, e: string, r: Route)
    requires Trace(ss, ops) && ss[0] == M.INITIAL && j <= |ops| && Unshared(ss, j, e)
    ensures r in RoutesOf(ss[j].tables, e) <==> exists k :: Holds(ss[j].tables, k, e, r)
  {
    hide LeadsThrough, Inv, NoSharingIn, HoldersOwnIn, PathsOwnIn;
    TidyWhileUnshared(ss, ops, j, e);
    TablesGood(ss, ops, j);
    var t := ss[j].tables;
    if r in RoutesOf(t, e) {
      OwnerDetermines(t, e, r);
    }
    if k :| Holds(t, k, e, r) {
      HolderShows(t, k, e, r);
    }
  }

  lemma HoldersDiffer(t: Tables, k: string, l: string, e: string)
    requires Inv(t) && HoldersOwnIn(t, e) && Within(t, k, e) && l in t.deployments
    requires t.deployments[k].routeId == t.deployments[l].routeId != ""
    ensures k == l
  {
    assert Agree(t, k, l);
    assert Within(t, l, e) && OwnsRoute(t, k) && OwnsRoute(t, l);
    var q :| q in RoutesOf(t, e) && q.id == t.deployments[k].routeId && q.deploymentId == k;
    var r :| r in RoutesOf(t, e) && r.id == t.deployments[l].routeId && r.deploymentId == l;
    var i :| 0 <= i < |RoutesOf(t, e)| && RoutesOf(t, e)[i] == q;
    var j :| 0 <= j < |RoutesOf(t, e)| && RoutesOf(t, e)[j] == r;
    RouteIdsUnique(t, e, i, e, j);
  }

  lemma LiveShown(t: Tables, k: string, e: string)
    requires Inv(t) && HoldersOwnIn(t, e) && PathsOwnIn(t, e) && Within(t, k, e) && Live(t.deployments[k].status)
    ensures RouteFor(t.deployments[k]) in RoutesOf(t, e)
    ensures forall l | l in t.deployments && t.deployments[l].routeId == t.deployments[k].routeId :: l == k
  {
    assert StatusOk(t.deployments[k]);
    hide Inv, HoldersOwnIn, PathsOwnIn;
    HolderShows(t, k, e, RouteFor(t.deployments[k]));
    forall l | l in t.deployments && t.deployments[l].routeId == t.deployments[k].routeId
      ensures l == k
    {
      HoldersDiffer(t, k, l, e);
    }
  }

  /** Then every waiting, active or failed route of the environment really is
      published, and no other deployment holds it. */
  lemma LiveRoutesPublished(ss: seq<M.State>, ops: seq<M.Op>, j: nat, e: string, k: string)
    requires Trace(ss, ops) && ss[0] == M.INITIAL && j <= |ops| && Unshared(ss, j, e)
    requires Within(ss[j].tables, k, e) && Live(ss[j].tables.deployments[k].status)
    ensures var t := ss[j].tables;
            && RouteFor(t.deployments[k]) in RoutesOf(t, e)
            && forall l | l in t.deployments && t.deployments[l].routeId == t.deployments[k].routeId :: l == k
  {
    hide LeadsThrough, Inv, NoSharingIn, HoldersOwnIn, PathsOwnIn, Live;
    TidyWhileUnshared(ss, ops, j, e);
    TablesGood(ss, ops, j);
    LiveShown(ss[j].tables, k, e);
  }
}
