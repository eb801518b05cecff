/** Which deployments have their route published: exactly when redeploying and
    removing on shared hosts leaves a live deployment without its route, and
    when it never does. */
module RouteOwnership {
  import opened Base
  import opened Routing
  import opened RoutingInvariant
  import Ids
  import MI = MachineInvariant

  lemma DeployStep(t: Tables, e: Effect)
    requires Inv(t) && MI.Bumps(t, e) && e.Deploys?
    ensures Publishes(t, Apply(t, e), e.dep, t.deployments[e.dep].info.environment)
  {
    DeployPublishes(t, e.dep, e.ip, e.port, e.at);
  }

  lemma RemoveStep(t: Tables, e: Effect)
    requires Inv(t) && MI.Bumps(t, e) && !e.Deploys?
    ensures e.Removes? && Withdraws(t, Apply(t, e), e.dep, t.deployments[e.dep].info.environment)
  {
    RemoveWithdraws(t, e.dep, e.at);
  }

  /** The route id deployment k holds is in its environment's table. */
  ghost predicate HasRoute(t: Tables, k: string)
    requires k in t.deployments
  {
    exists r :: r in RoutesOf(t, t.deployments[k].info.environment) && r.id == t.deployments[k].routeId
  }

  /** Deployment k is live, and its route is published. */
  ghost predicate LiveServed(t: Tables, k: string) {
    k in t.deployments && Live(t.deployments[k].status) && HasRoute(t, k)
  }

  /** The effect removes another deployment that holds the route id of k. */
  predicate Strands(t: Tables, e: Effect, k: string)
    requires k in t.deployments
  {
    e.Removes? && e.dep != k && e.dep in t.deployments && t.deployments[e.dep].routeId == t.deployments[k].routeId
  }

  lemma PublishKeepsRoute(t: Tables, t': Tables, id: string, e: string, k: string)
    requires Publishes(t, t', id, e) && (k == id || (k in t.deployments && HasRoute(t, k)))
    ensures k in t'.deployments && HasRoute(t', k)
  {
    var d' := t'.deployments[id];
    var served :| served in t'.states[e].routes && served.host == d'.info.host;
    if k == id {
      assert served.id == d'.routeId;
    } else {
      var f := t.deployments[k].info.environment;
      var r :| r in RoutesOf(t, f) && r.id == t.deployments[k].routeId;
      assert if f == e && r.host == d'.info.host then served.id == r.id else r in RoutesOf(t', f);
    }
  }

  lemma WithdrawKeepsRoute(t: Tables, t': Tables, id: string, e: string, k: string)
    requires Inv(t) && Withdraws(t, t', id, e) && k in t.deployments && k != id && HasRoute(t, k)
    requires t.deployments[k].routeId != ""
    ensures k in t'.deployments && (HasRoute(t', k) <==> t.deployments[k].routeId != t.deployments[id].routeId)
  {
    var f := t.deployments[k].info.environment;
    if t.deployments[k].routeId == t.deployments[id].routeId {
      assert Agree(t, k, id);
      assert !HasRoute(t', k);
    } else {
      var r :| r in RoutesOf(t, f) && r.id == t.deployments[k].routeId;
      assert r in RoutesOf(t', f);
    }
  }

  lemma QuietKeepsRoute(t: Tables, t': Tables, k: string)
    requires k in t.deployments && HasRoute(t, k) && MI.Quietly(t, t')
    ensures k in t'.deployments && HasRoute(t', k)
  {
    var r :| r in RoutesOf(t, t.deployments[k].info.environment) && r.id == t.deployments[k].routeId;
    assert r in RoutesOf(t', t'.deployments[k].info.environment);
  }

  lemma LiveHolds(t: Tables, k: string)
    requires Inv(t) && k in t.deployments && Live(t.deployments[k].status)
    ensures t.deployments[k].routeId != ""
  {
    assert StatusOk(t.deployments[k]);
  }

  /** A live deployment that stays live loses its published route in exactly one
      way: another deployment that holds the same route id is removed. */
  lemma RouteLostIffStranding(t: Tables, e: Effect, k: string)
    requires Inv(t) && Enabled(t, e) && LiveServed(t, k)
    ensures k in Apply(t, e).deployments
    ensures Live(Apply(t, e).deployments[k].status) ==> (LiveServed(Apply(t, e), k) <==> !Strands(t, e, k))
  {
    hide Inv;
    LiveHolds(t, k);
    hide Inv, HasRoute;
    if !MI.Bumps(t, e) {
      MI.QuietStep(t, e);
      QuietKeepsRoute(t, Apply(t, e), k);
    } else if e.Deploys? {
      DeployStep(t, e);
      PublishKeepsRoute(t, Apply(t, e), e.dep, t.deployments[e.dep].info.environment, k);
    } else {
      RemoveStep(t, e);
      if e.dep != k {
        WithdrawKeepsRoute(t, Apply(t, e), e.dep, t.deployments[e.dep].info.environment, k);
      }
    }
  }

  ghost predicate LiveHaveRoutes(t: Tables) {
    forall k | k in t.deployments && Live(t.deployments[k].status) :: LiveServed(t, k)
  }

  /** An effect makes a deployment live by publishing it only. */
  lemma LiveBefore(t: Tables, e: Effect, k: string)
    requires Inv(t) && Enabled(t, e) && k in Apply(t, e).deployments && Live(Apply(t, e).deployments[k].status)
    ensures (k in t.deployments && Live(t.deployments[k].status)) || LiveServed(Apply(t, e), k)
  {
    hide Inv, HasRoute;
    if !MI.Bumps(t, e) {
      MI.QuietStep(t, e);
    } else if e.Deploys? {
      DeployStep(t, e);
      if k == e.dep {
        PublishKeepsRoute(t, Apply(t, e), k, t.deployments[k].info.environment, k);
      }
    } else {
      RemoveStep(t, e);
    }
  }

  /** So "every live deployment has its route published" survives every effect,
      except exactly the removal of a deployment that shares its route id with
      another live one. */
  lemma RoutesLostIffStranding(t: Tables, e: Effect)
    requires Inv(t) && Enabled(t, e) && LiveHaveRoutes(t)
    ensures LiveHaveRoutes(Apply(t, e)) <==>
            !exists k :: k in t.deployments && Live(t.deployments[k].status) && Strands(t, e, k)
  {
    hide Inv, HasRoute, Apply;
    forall k | k in Apply(t, e).deployments && Live(Apply(t, e).deployments[k].status)
      ensures LiveServed(Apply(t, e), k) <==>
              !(k in t.deployments && Live(t.deployments[k].status) && Strands(t, e, k))
    {
      LiveBefore(t, e, k);
      if k in t.deployments && Live(t.deployments[k].status) {
        RouteLostIffStranding(t, e, k);
      } else {
        assert LiveServed(Apply(t, e), k);
      }
    }
    forall k | k in t.deployments && Live(t.deployments[k].status) && Strands(t, e, k)
      ensures k in Apply(t, e).deployments && Live(Apply(t, e).deployments[k].status)
    {
      StrandedStaysLive(t, e, k);
    }
  }

  lemma StrandedStaysLive(t: Tables, e: Effect, k: string)
    requires Inv(t) && Enabled(t, e) && k in t.deployments && Strands(t, e, k)
    ensures k in Apply(t, e).deployments && Apply(t, e).deployments[k] == t.deployments[k]
  {
    MI.DeploymentStep(t, e, k);
  }

  // ---- without shared hosts ----

  predicate Shares(d: Deployment, d': Deployment) {
    Routed(d) && Routed(d') && d.info.environment == d'.info.environment && d.info.host == d'.info.host
  }

  /** No two routed deployments of the environment share a host. */
  ghost predicate NoSharingIn(t: Tables, e: string) {
    forall k, l | Within(t, k, e) && Within(t, l, e) && k != l :: !Shares(t.deployments[k], t.deployments[l])
  }

  /** Deployment k owns a published route with the id it holds. */
  ghost predicate OwnsRoute(t: Tables, k: string)
    requires k in t.deployments
  {
    exists r :: r in RoutesOf(t, t.deployments[k].info.environment) && r.id == t.deployments[k].routeId && r.deploymentId == k
  }

  ghost predicate HoldersOwnIn(t: Tables, e: string) {
    forall k | Within(t, k, e) && t.deployments[k].routeId != "" :: OwnsRoute(t, k)
  }

  lemma PublishKeepsOwners(t: Tables, t': Tables, id: string, e: string, f: string)
    requires Inv(t) && NoSharingIn(t, f) && HoldersOwnIn(t, f) && Publishes(t, t', id, e)
    ensures HoldersOwnIn(t', f)
  {
    hide Keyed, HostsUnique, UniqueHosts, StatusOk;
    var d' := t'.deployments[id];
    var served :| served in t'.states[e].routes && served.host == d'.info.host;
    forall k | Within(t', k, f) && t'.deployments[k].routeId != ""
      ensures OwnsRoute(t', k)
    {
      if k == id {
        assert served.id == d'.routeId && served.deploymentId == id;
      } else {
        assert Within(t, k, f) && OwnsRoute(t, k) && StatusOk(t.deployments[k]);
        var r :| r in RoutesOf(t, f) && r.id == t.deployments[k].routeId && r.deploymentId == k;
        assert OwnedIn(t, f, r);
        assert Within(t, id, f) ==> !Shares(t.deployments[k], t.deployments[id]);
        assert r in RoutesOf(t', f);
      }
    }
  }

  lemma WithdrawKeepsOwner(t: Tables, t': Tables, id: string, e: string, f: string, k: string)
    requires Inv(t) && NoSharingIn(t, f) && Withdraws(t, t', id, e)
    requires Within(t, k, f) && t'.deployments[k].routeId != "" && OwnsRoute(t, k)
    ensures OwnsRoute(t', k)
  {
    assert StatusOk(t.deployments[k]) && StatusOk(t.deployments[id]);
    var r :| r in RoutesOf(t, f) && r.id == t.deployments[k].routeId && r.deploymentId == k;
    assert Agree(t, k, id);
    assert Within(t, id, f) ==> !Shares(t.deployments[k], t.deployments[id]);
    assert r in RoutesOf(t', f);
  }

  lemma WithdrawKeepsOwners(t: Tables, t': Tables, id: string, e: string, f: string)
    requires Inv(t) && NoSharingIn(t, f) && HoldersOwnIn(t, f) && Withdraws(t, t', id, e)
    ensures HoldersOwnIn(t', f)
  {
    hide Inv, NoSharingIn, OwnsRoute;
    forall k | Within(t', k, f) && t'.deployments[k].routeId != ""
      ensures OwnsRoute(t', k)
    {
      assert Within(t, k, f) && OwnsRoute(t, k);
      WithdrawKeepsOwner(t, t', id, e, f, k);
    }
  }

  lemma QuietKeepsOwners(t: Tables, t': Tables, f: string)
    requires HoldersOwnIn(t, f) && MI.Quietly(t, t')
    ensures HoldersOwnIn(t', f)
  {
    forall k | Within(t', k, f) && t'.deployments[k].routeId != ""
      ensures OwnsRoute(t', k)
    {
      assert Within(t, k, f) && OwnsRoute(t, k);
      var r :| r in RoutesOf(t, f) && r.id == t.deployments[k].routeId && r.deploymentId == k;
      assert r in RoutesOf(t', f);
    }
  }

  lemma OwnersStep(t: Tables, e: Effect, f: string)
    requires Inv(t) && Enabled(t, e) && NoSharingIn(t, f) && HoldersOwnIn(t, f)
    ensures HoldersOwnIn(Apply(t, e), f)
  {
    hide NoSharingIn, HoldersOwnIn, Apply, Inv;
    var t' := Apply(t, e);
    if !MI.Bumps(t, e) {
      MI.QuietStep(t, e);
      QuietKeepsOwners(t, t', f);
    } else if e.Deploys? {
      DeployStep(t, e);
      PublishKeepsOwners(t, t', e.dep, t.deployments[e.dep].info.environment, f);
    } else {
      RemoveStep(t, e);
      WithdrawKeepsOwners(t, t', e.dep, t.deployments[e.dep].info.environment, f);
    }
  }

  /** Hosts are only ever added: who shares none now shared none before. */
  lemma NoSharingBefore(t: Tables, e: Effect, f: string)
    requires Inv(t) && Enabled(t, e) && NoSharingIn(Apply(t, e), f)
    ensures NoSharingIn(t, f)
  {
    hide Inv, Apply;
    var t' := Apply(t, e);
    forall k, l | Within(t, k, f) && Within(t, l, f) && k != l
      ensures !Shares(t.deployments[k], t.deployments[l])
    {
      MI.DeploymentStep(t, e, k);
      MI.DeploymentStep(t, e, l);
      assert Within(t', k, f) && Within(t', l, f);
    }
  }

  // ---- what an updated route keeps ----

  /** After a publication the route carries the health check path of the
      deployment it now serves exactly when the route is new or had that path
      already: an update does not refresh it. */
  lemma HealthCheckPathIffNewOrSame(t: Tables, id: string, ip: string, port: int, at: Time, r: Route)
    requires Inv(t) && id in t.deployments && Routed(t.deployments[id])
    requires r in RoutesOf(Deploy(t, id, ip, port, at), t.deployments[id].info.environment)
    requires r.host == t.deployments[id].info.host
    ensures var d := t.deployments[id];
            r.healthCheckPath == d.info.healthCheckPath <==>
            forall q | q in RoutesOf(t, d.info.environment) && q.host == d.info.host ::
              q.healthCheckPath == d.info.healthCheckPath
  {
    var d := t.deployments[id];
    var e := d.info.environment;
    var rs, made := RoutesOf(t, e), Made(t, id, d, ip, port);
    DeployShape(t, id, ip, port, at);
    UpsertedMembers(rs, made);
    assert r == Served(rs, made);
    if q :| q in rs && q.host == d.info.host {
      assert r == q.(upstream := made.upstream, deploymentId := made.deploymentId);
    }
  }
}
