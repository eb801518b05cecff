/** What every effect keeps true of the tables. */
module RoutingInvariant {
  import opened Base
  import opened Routing
  import Ids

  // ---- route lists ----

  ghost predicate UniqueHosts(rs: seq<Route>) {
    forall i, j | 0 <= i < j < |rs| :: rs[i].host != rs[j].host
  }

  /** The entry that serves made.host after an upsert. */
  function Served(rs: seq<Route>, made: Route): Route {
    Upserted(rs, made)[HostIndex(rs, made.host)]
  }

  /** An upsert replaces or adds the entry for one host and keeps every other
      entry; a replaced entry keeps its id, path and health check path. */
  lemma UpsertedMembers(rs: seq<Route>, made: Route)
    requires UniqueHosts(rs)
    ensures UniqueHosts(Upserted(rs, made))
    ensures forall r :: r in Upserted(rs, made) <==> r == Served(rs, made) || (r in rs && r.host != made.host)
    ensures var s := Served(rs, made);
            s.host == made.host && s.upstream == made.upstream && s.deploymentId == made.deploymentId
    ensures (forall r | r in rs :: r.host != made.host) ==> Served(rs, made) == made && |Upserted(rs, made)| == |rs| + 1
    ensures forall r | r in rs && r.host == made.host ::
              && Served(rs, made) == r.(upstream := made.upstream, deploymentId := made.deploymentId)
              && |Upserted(rs, made)| == |rs|
  {
    var i, us := HostIndex(rs, made.host), Upserted(rs, made);
    forall r
      ensures r in us <==> r == Served(rs, made) || (r in rs && r.host != made.host)
    {
      if r in us {
        var j :| 0 <= j < |us| && us[j] == r;
        assert j != i ==> rs[j] == r;
      }
      if r in rs && r.host != made.host {
        var j :| 0 <= j < |rs| && rs[j] == r;
        assert us[j] == r;
      }
      assert us[i] in us;
    }
  }

  lemma {:induction false} WithoutMember(rs: seq<Route>, id: string, r: Route)
    ensures r in Without(rs, id) <==> r in rs && r.id != id
  {
    if rs != [] {
      var n := |rs| - 1;
      WithoutMember(rs[..n], id, r);
      assert rs == rs[..n] + [rs[n]];
    }
  }

  lemma {:induction false} WithoutUnique(rs: seq<Route>, id: string)
    requires UniqueHosts(rs)
    ensures UniqueHosts(Without(rs, id))
  {
    if rs != [] {
      var n := |rs| - 1;
      WithoutUnique(rs[..n], id);
      var w := Without(rs[..n], id);
      forall i | 0 <= i < |w|
        ensures w[i].host != rs[n].host
      {
        WithoutMember(rs[..n], id, w[i]);
        assert w[i] in rs[..n];
      }
    }
  }

  lemma {:induction false} WithoutSize(rs: seq<Route>, id: string)
    ensures |Without(rs, id)| <= |rs|
  {
    if rs != [] {
      WithoutSize(rs[..|rs| - 1], id);
    }
  }

  lemma {:induction false} WithoutNone(rs: seq<Route>, id: string)
    requires forall i | 0 <= i < |rs| :: rs[i].id != id
    ensures Without(rs, id) == rs
  {
    if rs != [] {
      var n := |rs| - 1;
      WithoutNone(rs[..n], id);
      assert rs == rs[..n] + [rs[n]];
    }
  }

  lemma {:induction false} WithoutConcat(a: seq<Route>, b: seq<Route>, id: string)
    ensures Without(a + b, id) == Without(a, id) + Without(b, id)
  {
    if b == [] {
      assert a + b == a;
    } else {
      var n := |b| - 1;
      WithoutConcat(a, b[..n], id);
      assert (a + b)[..|a + b| - 1] == a + b[..n];
    }
  }

  lemma WithoutSelf(r: Route)
    ensures Without([r], r.id) == []
  {
    assert [r][..0] == [];
  }

  /** Taking out the only route with an id closes the gap and keeps the order. */
  lemma WithoutOne(rs: seq<Route>, i: nat, id: string)
    requires i < |rs| && rs[i].id == id
    requires forall j | 0 <= j < |rs| && j != i :: rs[j].id != id
    ensures Without(rs, id) == rs[..i] + rs[i + 1..]
  {
    hide Without;
    WithoutSelf(rs[i]);
    WithoutNone(rs[..i], id);
    WithoutNone(rs[i + 1..], id);
    assert rs == (rs[..i] + [rs[i]]) + rs[i + 1..];
    WithoutConcat(rs[..i] + [rs[i]], rs[i + 1..], id);
    WithoutConcat(rs[..i], [rs[i]], id);
  }

  /** A removal takes out exactly the routes with the id. */
  lemma WithoutMembers(rs: seq<Route>, id: string)
    ensures forall r :: r in Without(rs, id) <==> r in rs && r.id != id
    ensures UniqueHosts(rs) ==> UniqueHosts(Without(rs, id))
  {
    forall r {
      WithoutMember(rs, id, r);
    }
    if UniqueHosts(rs) {
      WithoutUnique(rs, id);
    }
  }

  // ---- the invariant ----

  /** Deployments are filed under their own ids, which are exactly the ids the
      counter has issued. */
  ghost predicate Keyed(t: Tables) {
    && t.deployments.Keys == Ids.Issued(Ids.DeploymentKind, t.deploymentSeq)
    && forall k | k in t.deployments :: t.deployments[k].info.id == k
  }

  /** Desired states are filed under their own environment and published at
      least once; the version counters agree with them. */
  ghost predicate Versioned(t: Tables) {
    && t.versionSeq.Keys == t.states.Keys
    && forall e | e in t.states ::
         && t.states[e].environment == e && t.states[e].kind == GATEWAY_ROUTES
         && 1 <= t.states[e].version == t.versionSeq[e]
  }

  ghost predicate HostsUnique(t: Tables) {
    forall e | e in t.states :: UniqueHosts(t.states[e].routes)
  }

  /** Route r of environment e belongs to the deployment it names. */
  ghost predicate OwnedIn(t: Tables, e: string, r: Route) {
    && r.environment == e && r.path == "/"
    && r.deploymentId in t.deployments
    && var d := t.deployments[r.deploymentId];
       && d.routeId == r.id != "" && d.info.environment == e && d.info.host == r.host && Routed(d)
       && r.upstream == Ids.BuildUpstream(d.runtimePrivateIP, d.hostPort)
  }

  ghost predicate Owned(t: Tables) {
    forall e, r | e in t.states && r in t.states[e].routes :: OwnedIn(t, e, r)
  }

  /** The route ids deployments hold have been issued, for environments that
      have a desired state. */
  ghost predicate HeldIssued(t: Tables) {
    forall k | k in t.deployments && t.deployments[k].routeId != "" ::
      t.deployments[k].routeId in Ids.Issued(Ids.RouteKind, t.routeSeq) && t.deployments[k].info.environment in t.states
  }

  ghost predicate SamePlace(d: Deployment, d': Deployment) {
    d.info.environment == d'.info.environment && d.info.host == d'.info.host
  }

  /** Deployments that hold the same route id share environment and host. */
  ghost predicate Agree(t: Tables, k: string, l: string) {
    k in t.deployments && l in t.deployments && t.deployments[k].routeId == t.deployments[l].routeId != "" ==>
      SamePlace(t.deployments[k], t.deployments[l])
  }

  ghost predicate HeldAgree(t: Tables) { forall k, l :: Agree(t, k, l) }

  predicate Live(s: DeploymentStatus) { s == RoutePending || s == RouteActive || s == RouteFailed }

  predicate StatusOk(d: Deployment) {
    && d.status != Requested
    && (Live(d.status) ==> Routed(d) && d.routeId != "")
    && (d.routeId != "" ==> Routed(d) && (Live(d.status) || d.status == Removed))
    && (d.status == Healthy ==> !Routed(d))
  }

  ghost predicate StatusesOk(t: Tables) {
    forall k | k in t.deployments :: StatusOk(t.deployments[k])
  }

  ghost predicate Inv(t: Tables) {
    Keyed(t) && Versioned(t) && HostsUnique(t) && Owned(t) && HeldIssued(t) && HeldAgree(t) && StatusesOk(t)
  }

  // ---- preservation ----

  predicate SameHolding(d: Deployment, o: Deployment) {
    && d.info == o.info && d.routeId == o.routeId
    && d.runtimePrivateIP == o.runtimePrivateIP && d.hostPort == o.hostPort
  }

  /** t' has the same desired states as t and the same deployments up to status,
      plus possibly new ones that hold no route. */
  ghost predicate Extends(t: Tables, t': Tables) {
    && t'.states == t.states && t'.versionSeq == t.versionSeq && t'.routeSeq == t.routeSeq
    && (forall k | k in t.deployments :: k in t'.deployments && SameHolding(t'.deployments[k], t.deployments[k]))
    && (forall k | k in t'.deployments && k !in t.deployments :: t'.deployments[k].routeId == "")
  }

  lemma ExtendsOwned(t: Tables, t': Tables)
    requires Owned(t) && Extends(t, t')
    ensures Owned(t')
  {
    forall e, r | e in t'.states && r in t'.states[e].routes
      ensures OwnedIn(t', e, r)
    {
      assert OwnedIn(t, e, r);
    }
  }

  lemma ExtendsHeld(t: Tables, t': Tables)
    requires HeldIssued(t) && HeldAgree(t) && Extends(t, t')
    ensures HeldIssued(t') && HeldAgree(t')
  {
    forall k, l
      ensures Agree(t', k, l)
    {
      assert Agree(t, k, l);
    }
  }

  lemma ExtendsKeeps(t: Tables, t': Tables)
    requires Inv(t) && Extends(t, t') && Keyed(t') && StatusesOk(t')
    ensures Inv(t')
  {
    ExtendsOwned(t, t');
    ExtendsHeld(t, t');
  }

  lemma PutKeeps(t: Tables, id: string, d: Deployment)
    requires Inv(t) && id in t.deployments && StatusOk(d) && SameHolding(d, t.deployments[id])
    ensures Inv(Put(t, id, d))
  {
    hide Apply, HostsUnique, UniqueHosts, HeldIssued;
    assert Put(t, id, d).deployments.Keys == t.deployments.Keys;
    ExtendsKeeps(t, Put(t, id, d));
  }

  lemma CreateKeyed(t: Tables, info: DeploymentInfo, commandId: string)
    requires Keyed(t) && info.id == Ids.Deployment(t.deploymentSeq + 1)
    ensures Keyed(Create(t, info, commandId)) && info.id !in t.deployments
  {
    Ids.NextIsFresh(Ids.DeploymentKind, t.deploymentSeq);
    assert Create(t, info, commandId).deployments.Keys == t.deployments.Keys + {info.id};
  }

  lemma CreateExtends(t: Tables, info: DeploymentInfo, commandId: string)
    requires Keyed(t) && StatusesOk(t) && info.id == Ids.Deployment(t.deploymentSeq + 1)
    ensures var t' := Create(t, info, commandId);
            info.id !in t.deployments && Extends(t, t') && Keyed(t') && StatusesOk(t')
  {
    hide Keyed, Ids.Deployment;
    CreateKeyed(t, info, commandId);
  }

  lemma CreateKeeps(t: Tables, info: DeploymentInfo, commandId: string)
    requires Inv(t) && info.id == Ids.Deployment(t.deploymentSeq + 1)
    ensures Inv(Create(t, info, commandId))
    ensures info.id !in t.deployments
  {
    CreateExtends(t, info, commandId);
    ExtendsKeeps(t, Create(t, info, commandId));
  }

  lemma JudgeExtends(t: Tables, environment: string, applied: bool, at: Time)
    requires Keyed(t) && StatusesOk(t)
    ensures var t' := Judge(t, environment, applied, at); Extends(t, t') && Keyed(t') && StatusesOk(t')
  {
    hide StatusOk, Judged;
    var t' := Judge(t, environment, applied, at);
    assert t'.deployments.Keys == t.deployments.Keys;
    forall k | k in t'.deployments
      ensures StatusOk(t'.deployments[k]) && SameHolding(t'.deployments[k], t.deployments[k])
    {
      JudgedOk(t.deployments[k], environment, applied, at);
    }
  }

  lemma JudgedOk(d: Deployment, environment: string, applied: bool, at: Time)
    requires StatusOk(d)
    ensures StatusOk(Judged(d, environment, applied, at)) && SameHolding(Judged(d, environment, applied, at), d)
  {
  }

  lemma JudgeKeeps(t: Tables, environment: string, applied: bool, at: Time)
    requires Inv(t)
    ensures Inv(Judge(t, environment, applied, at))
  {
    hide Keyed, Versioned, HostsUnique, Owned, HeldIssued, HeldAgree, StatusesOk, Judge;
    JudgeExtends(t, environment, applied, at);
    ExtendsKeeps(t, Judge(t, environment, applied, at));
  }

  // ---- publications ----

  ghost predicate Serves(rs: seq<Route>, host: string) { exists r :: r in rs && r.host == host }

  /** rs' is rs with the host of d' served by d', through the route d' holds. */
  ghost predicate TakesOver(rs: seq<Route>, rs': seq<Route>, id: string, d': Deployment) {
    && UniqueHosts(rs') && Serves(rs', d'.info.host)
    && (forall r: Route | r.host != d'.info.host :: r in rs' <==> r in rs)
    && (forall r | r in rs' && r.host == d'.info.host ::
          r.id == d'.routeId && r.environment == d'.info.environment && r.path == "/" && r.deploymentId == id
          && r.upstream == Ids.BuildUpstream(d'.runtimePrivateIP, d'.hostPort))
  }

  /** The route id d' holds: the id of the host's route, or the next new one. */
  ghost predicate HoldsIdOf(rs: seq<Route>, seq0: nat, seq1: nat, d': Deployment) {
    if Serves(rs, d'.info.host)
    then seq1 == seq0 && forall r | r in rs && r.host == d'.info.host :: r.id == d'.routeId
    else seq1 == seq0 + 1 && d'.routeId == Ids.Route(seq1)
  }

  /** t' differs from t in one deployment, and in one environment whose version
      has gone up by one. */
  ghost predicate Rewrites(t: Tables, t': Tables, id: string, e: string) {
    && id in t.deployments && id in t'.deployments && e in t'.states
    && t'.deployments == t.deployments[id := t'.deployments[id]]
    && t'.deployments[id].info == t.deployments[id].info && t'.deployments[id].commandId == t.deployments[id].commandId
    && t.deployments[id].info.environment == e
    && t'.deploymentSeq == t.deploymentSeq
    && t'.states == t.states[e := t'.states[e]]
    && t'.versionSeq == t.versionSeq[e := t'.states[e].version]
    && t'.states[e].version == VersionOf(t, e) + 1
    && t'.states[e].kind == GATEWAY_ROUTES && t'.states[e].environment == e
  }

  ghost predicate Publishes(t: Tables, t': Tables, id: string, e: string) {
    && Rewrites(t, t', id, e)
    && var d' := t'.deployments[id];
       && Routed(d') && d'.status == RoutePending && d'.routeId != ""
       && TakesOver(RoutesOf(t, e), t'.states[e].routes, id, d')
       && HoldsIdOf(RoutesOf(t, e), t.routeSeq, t'.routeSeq, d')
  }

  /** The route number an upsert uses, and the route it would add. */
  function NextSeq(t: Tables, e: string, host: string): nat {
    if HostIndex(RoutesOf(t, e), host) < |RoutesOf(t, e)| then t.routeSeq else t.routeSeq + 1
  }

  function Made(t: Tables, id: string, d: Deployment, ip: string, port: int): Route {
    var e := d.info.environment;
    Route(Ids.Route(NextSeq(t, e, d.info.host)), e, d.info.host, "/", Ids.BuildUpstream(ip, port), id, d.info.healthCheckPath)
  }

  /** A routed deploy success in one step: the deployment, the environment's
      desired state, its version counter and the route counter change. */
  lemma DeployShape(t: Tables, id: string, ip: string, port: int, at: Time)
    requires id in t.deployments && Routed(t.deployments[id])
    ensures var d := t.deployments[id];
            var e := d.info.environment;
            var rs, made, v := RoutesOf(t, e), Made(t, id, d, ip, port), VersionOf(t, e) + 1;
            Deploy(t, id, ip, port, at) == Tables(
              t.deployments[id := d.(runtimePrivateIP := ip, hostPort := port, status := RoutePending, updatedAt := at,
                                     routeId := Served(rs, made).id)],
              t.states[e := Get(t, e).(version := v, routes := Upserted(rs, made))],
              t.deploymentSeq, NextSeq(t, e, d.info.host), t.versionSeq[e := v])
  {
    var d := t.deployments[id];
    var e := d.info.environment;
    var (t1, routeId) := Upsert(t, e, d.info.host, Ids.BuildUpstream(ip, port), id, d.info.healthCheckPath);
    var ds := t1.states[e];
    assert ds.routes == Upserted(RoutesOf(t, e), Made(t, id, d, ip, port));
    assert t1.states[e := ds.(version := ds.version + 1)] == t.states[e := ds.(version := ds.version + 1)];
  }

  lemma UpsertTakesOver(rs: seq<Route>, made: Route, seq0: nat, d': Deployment)
    requires UniqueHosts(rs)
    requires forall r | r in rs && r.host == made.host :: r.environment == made.environment && r.path == "/"
    requires d'.routeId == Served(rs, made).id && d'.info.host == made.host && d'.info.environment == made.environment
    requires made.path == "/" && made.upstream == Ids.BuildUpstream(d'.runtimePrivateIP, d'.hostPort)
    requires var n := if HostIndex(rs, made.host) < |rs| then seq0 else seq0 + 1; made.id == Ids.Route(n)
    ensures TakesOver(rs, Upserted(rs, made), made.deploymentId, d')
    ensures HoldsIdOf(rs, seq0, if HostIndex(rs, made.host) < |rs| then seq0 else seq0 + 1, d')
  {
    UpsertedMembers(rs, made);
    var i := HostIndex(rs, made.host);
    assert Served(rs, made) in Upserted(rs, made);
    if i < |rs| {
      assert rs[i] in rs;
    }
  }

  lemma DeployRewrites(t: Tables, id: string, ip: string, port: int, at: Time)
    requires Versioned(t) && id in t.deployments && Routed(t.deployments[id])
    ensures Rewrites(t, Deploy(t, id, ip, port, at), id, t.deployments[id].info.environment)
  {
    hide Deploy, Upserted, Served;
    DeployShape(t, id, ip, port, at);
  }

  lemma DeployTakesOver(t: Tables, id: string, ip: string, port: int, at: Time)
    requires Inv(t) && id in t.deployments && Routed(t.deployments[id])
    ensures var d, t' := t.deployments[id], Deploy(t, id, ip, port, at);
            var e := d.info.environment;
            && id in t'.deployments && e in t'.states
            && t'.deployments[id].info == d.info && t'.deployments[id].status == RoutePending
            && TakesOver(RoutesOf(t, e), t'.states[e].routes, id, t'.deployments[id])
            && HoldsIdOf(RoutesOf(t, e), t.routeSeq, t'.routeSeq, t'.deployments[id])
  {
    var d := t.deployments[id];
    var e := d.info.environment;
    var t' := Deploy(t, id, ip, port, at);
    var rs, made := RoutesOf(t, e), Made(t, id, d, ip, port);
    DeployShape(t, id, ip, port, at);
    assert forall r | r in rs :: OwnedIn(t, e, r);
    UpsertTakesOver(rs, made, t.routeSeq, t'.deployments[id]);
  }

  lemma DeployPublishes(t: Tables, id: string, ip: string, port: int, at: Time)
    requires Inv(t) && id in t.deployments && Routed(t.deployments[id])
    ensures Publishes(t, Deploy(t, id, ip, port, at), id, t.deployments[id].info.environment)
  {
    hide Keyed, Versioned, HostsUnique, Owned, HeldIssued, HeldAgree, StatusesOk, Deploy, Rewrites, TakesOver, HoldsIdOf;
    DeployRewrites(t, id, ip, port, at);
    DeployTakesOver(t, id, ip, port, at);
    var t' := Deploy(t, id, ip, port, at);
    IssuedNotEmpty(t, t.deployments[id].info.environment, t'.deployments[id], t'.routeSeq);
  }

  lemma IssuedNotEmpty(t: Tables, e: string, d': Deployment, n: nat)
    requires Owned(t) && HoldsIdOf(RoutesOf(t, e), t.routeSeq, n, d')
    ensures d'.routeId != ""
  {
    if r :| r in RoutesOf(t, e) && r.host == d'.info.host {
      assert OwnedIn(t, e, r);
    } else {
      assert |Ids.Route(n)| > 0;
    }
  }

  lemma RewriteKeyed(t: Tables, t': Tables, id: string, e: string)
    requires Keyed(t) && StatusesOk(t) && Rewrites(t, t', id, e) && StatusOk(t'.deployments[id])
    ensures Keyed(t') && StatusesOk(t')
  {
    assert t'.deployments.Keys == t.deployments.Keys;
  }

  lemma RewriteVersioned(t: Tables, t': Tables, id: string, e: string)
    requires Keyed(t) && Versioned(t) && HostsUnique(t) && StatusesOk(t)
    requires Rewrites(t, t', id, e) && UniqueHosts(t'.states[e].routes) && StatusOk(t'.deployments[id])
    ensures Keyed(t') && Versioned(t') && HostsUnique(t') && StatusesOk(t')
  {
    hide Keyed, StatusesOk, Versioned, HostsUnique, StatusOk, UniqueHosts;
    RewriteKeyed(t, t', id, e);
    RewriteNumbered(t, t', id, e);
    RewriteHosts(t, t', id, e);
  }

  lemma RewriteNumbered(t: Tables, t': Tables, id: string, e: string)
    requires Versioned(t) && Rewrites(t, t', id, e)
    ensures Versioned(t')
  {
  }

  lemma RewriteHosts(t: Tables, t': Tables, id: string, e: string)
    requires HostsUnique(t) && Rewrites(t, t', id, e) && UniqueHosts(t'.states[e].routes)
    ensures HostsUnique(t')
  {
    hide UniqueHosts;
  }

  lemma PublishAgrees(t: Tables, t': Tables, id: string, e: string, k: string)
    requires Inv(t) && Publishes(t, t', id, e)
    requires k in t.deployments && t.deployments[k].routeId == t'.deployments[id].routeId
    ensures SamePlace(t.deployments[k], t'.deployments[id])
  {
    var d' := t'.deployments[id];
    if r :| r in RoutesOf(t, e) && r.host == d'.info.host {
      assert OwnedIn(t, e, r);
      assert Agree(t, k, r.deploymentId);
    } else {
      Ids.NextIsFresh(Ids.RouteKind, t.routeSeq);
    }
  }

  lemma PublishIssued(t: Tables, t': Tables, id: string, e: string)
    requires Inv(t) && Publishes(t, t', id, e)
    ensures HeldIssued(t')
  {
    if r :| r in RoutesOf(t, e) && r.host == t'.deployments[id].info.host {
      assert OwnedIn(t, e, r);
    }
  }

  lemma PublishHeld(t: Tables, t': Tables, id: string, e: string)
    requires Inv(t) && Publishes(t, t', id, e)
    ensures HeldIssued(t') && HeldAgree(t')
  {
    PublishIssued(t, t', id, e);
    hide HeldIssued, Keyed, Versioned, HostsUnique, Owned, StatusesOk;
    forall k, l
      ensures Agree(t', k, l)
    {
      assert Agree(t, k, l);
      if k in t.deployments && t.deployments[k].routeId == t'.deployments[id].routeId {
        PublishAgrees(t, t', id, e, k);
      }
      if l in t.deployments && t.deployments[l].routeId == t'.deployments[id].routeId {
        PublishAgrees(t, t', id, e, l);
      }
    }
  }

  lemma PublishOwned(t: Tables, t': Tables, id: string, e: string)
    requires Inv(t) && Publishes(t, t', id, e)
    ensures Owned(t')
  {
    forall f, r | f in t'.states && r in t'.states[f].routes
      ensures OwnedIn(t', f, r)
    {
      if f == e && r.host == t'.deployments[id].info.host {
      } else {
        assert f in t.states && r in t.states[f].routes;
        assert OwnedIn(t, f, r);
        assert r.deploymentId != id by {
          assert t.deployments[id].info.environment == e;
        }
      }
    }
  }

  // ---- withdrawals ----

  /** The holder of a route id gives it up, and the routes with that id go. */
  ghost predicate Withdraws(t: Tables, t': Tables, id: string, e: string) {
    && Rewrites(t, t', id, e) && t'.routeSeq == t.routeSeq
    && var d, d' := t.deployments[id], t'.deployments[id];
       && d.routeId != "" && d'.routeId == "" && d'.status == Removed
       && UniqueHosts(t'.states[e].routes)
       && (forall r :: r in t'.states[e].routes <==> r in RoutesOf(t, e) && r.id != d.routeId)
  }

  /** A remove success of a deployment that holds a route, in one step. */
  lemma RemoveShape(t: Tables, id: string, at: Time)
    requires id in t.deployments && t.deployments[id].routeId != "" && t.deployments[id].info.environment in t.states
    ensures var d := t.deployments[id];
            var e := d.info.environment;
            var v := VersionOf(t, e) + 1;
            Remove(t, id, at) == Tables(
              t.deployments[id := d.(status := Removed, updatedAt := at, routeId := "")],
              t.states[e := t.states[e].(version := v, routes := Without(RoutesOf(t, e), d.routeId))],
              t.deploymentSeq, t.routeSeq, t.versionSeq[e := v])
  {
    var d := t.deployments[id];
    var e := d.info.environment;
    var ds := t.states[e].(routes := Without(RoutesOf(t, e), d.routeId));
    assert t.states[e := ds][e := ds.(version := ds.version + 1)] == t.states[e := ds.(version := ds.version + 1)];
  }

  lemma RemoveWithdraws(t: Tables, id: string, at: Time)
    requires Inv(t) && id in t.deployments && t.deployments[id].routeId != ""
    ensures Withdraws(t, Remove(t, id, at), id, t.deployments[id].info.environment)
  {
    var d := t.deployments[id];
    assert d.info.environment in t.states;
    RemoveShape(t, id, at);
    WithoutMembers(RoutesOf(t, d.info.environment), d.routeId);
  }

  lemma WithdrawHeld(t: Tables, t': Tables, id: string, e: string)
    requires HeldIssued(t) && HeldAgree(t) && Withdraws(t, t', id, e)
    ensures HeldIssued(t') && HeldAgree(t')
  {
    forall k, l
      ensures Agree(t', k, l)
    {
      assert Agree(t, k, l);
    }
  }

  lemma WithdrawOwned(t: Tables, t': Tables, id: string, e: string)
    requires Inv(t) && Withdraws(t, t', id, e)
    ensures Owned(t')
  {
    forall f, r | f in t'.states && r in t'.states[f].routes
      ensures OwnedIn(t', f, r)
    {
      assert f in t.states && r in t.states[f].routes;
      assert OwnedIn(t, f, r);
    }
  }

  // ---- every effect ----

  lemma DeployKeeps(t: Tables, id: string, ip: string, port: int, at: Time)
    requires Inv(t)
    ensures Inv(Deploy(t, id, ip, port, at))
  {
    hide Keyed, Versioned, HostsUnique, UniqueHosts, Owned, HeldIssued, HeldAgree;
    if id in t.deployments {
      var d, t' := t.deployments[id], Deploy(t, id, ip, port, at);
      var e := d.info.environment;
      if Routed(d) {
        DeployPublishes(t, id, ip, port, at);
        RewriteVersioned(t, t', id, e);
        PublishHeld(t, t', id, e);
        PublishOwned(t, t', id, e);
      } else {
        UnroutedKeeps(t, id, t'.deployments[id]);
      }
    }
  }

  /** A deployment without a route owns none, so its address may change. */
  lemma UnroutedKeeps(t: Tables, id: string, d: Deployment)
    requires Inv(t) && id in t.deployments && StatusOk(d) && !Routed(d)
    requires d.info == t.deployments[id].info && d.routeId == t.deployments[id].routeId
    ensures Inv(Put(t, id, d))
  {
    hide Ids.Issued, Owned, HeldIssued, HeldAgree;
    assert Put(t, id, d).deployments.Keys == t.deployments.Keys;
    UnroutedOwned(t, id, d);
    UnroutedHeld(t, id, d);
  }

  lemma UnroutedOwned(t: Tables, id: string, d: Deployment)
    requires Owned(t) && id in t.deployments && !Routed(d) && d.info == t.deployments[id].info
    ensures Owned(Put(t, id, d))
  {
    var t' := Put(t, id, d);
    forall e, r | e in t'.states && r in t'.states[e].routes
      ensures OwnedIn(t', e, r)
    {
      assert OwnedIn(t, e, r);
    }
  }

  lemma UnroutedHeld(t: Tables, id: string, d: Deployment)
    requires HeldIssued(t) && HeldAgree(t) && id in t.deployments
    requires d.info == t.deployments[id].info && d.routeId == t.deployments[id].routeId
    ensures HeldIssued(Put(t, id, d)) && HeldAgree(Put(t, id, d))
  {
    forall k, l
      ensures Agree(Put(t, id, d), k, l)
    {
      assert Agree(t, k, l);
    }
  }

  lemma RemoveKeeps(t: Tables, id: string, at: Time)
    requires Inv(t)
    ensures Inv(Remove(t, id, at))
  {
    if id in t.deployments {
      var d, t' := t.deployments[id], Remove(t, id, at);
      if d.routeId != "" {
        var e := d.info.environment;
        RemoveWithdraws(t, id, at);
        RewriteVersioned(t, t', id, e);
        WithdrawHeld(t, t', id, e);
        WithdrawOwned(t, t', id, e);
      } else {
        PutKeeps(t, id, t'.deployments[id]);
      }
    }
  }

  /** Every effect keeps the invariant. */
  lemma ApplyKeeps(t: Tables, e: Effect)
    requires Inv(t) && Enabled(t, e)
    ensures Inv(Apply(t, e))
  {
    match e
    case Nothing =>
    case Creates(info, commandId) => CreateKeeps(t, info, commandId);
    case Starts(dep, at) => AdvanceKeeps(t, dep, CommandCreated, Deploying, at);
    case Fails(dep, at) => AdvanceKeeps(t, dep, Deploying, DeployFailed, at);
    case Deploys(dep, ip, port, at) => DeployKeeps(t, dep, ip, port, at);
    case Stops(dep, at) =>
      if dep in t.deployments {
        PutKeeps(t, dep, t.deployments[dep].(status := Removed, updatedAt := at));
      }
    case Removes(dep, at) => RemoveKeeps(t, dep, at);
    case Judges(env, applied, at) => JudgeKeeps(t, env, applied, at);
  }

  lemma AdvanceKeeps(t: Tables, id: string, from: DeploymentStatus, to: DeploymentStatus, at: Time)
    requires Inv(t) && ((from == CommandCreated && to == Deploying) || (from == Deploying && to == DeployFailed))
    ensures Inv(Advance(t, id, from, to, at))
  {
    hide Keyed, Versioned, HostsUnique, Owned, HeldIssued, HeldAgree;
    if id in t.deployments && t.deployments[id].status == from {
      PutKeeps(t, id, t.deployments[id].(status := to, updatedAt := at));
    }
  }

  /** A creation never targets an existing deployment. */
  lemma CreateKeepsNew(t: Tables, e: Effect)
    requires Inv(t) && Enabled(t, e)
    ensures e.Creates? ==> e.info.id !in t.deployments
  {
    if e.Creates? {
      CreateKeeps(t, e.info, e.commandId);
    }
  }

  // ---- consequences ----

  lemma DeploymentIdNotEmpty(t: Tables, k: string)
    requires Keyed(t) && k in t.deployments
    ensures k != ""
  {
    var n := Ids.IssuedNumber(Ids.DeploymentKind, t.deploymentSeq, k);
    assert |Ids.Deployment(n)| > 0;
  }

  lemma OwnedIdIssued(t: Tables, e: string, r: Route)
    requires Inv(t) && e in t.states && r in t.states[e].routes
    ensures r.id != "" && r.id in Ids.Issued(Ids.RouteKind, t.routeSeq)
  {
    assert OwnedIn(t, e, r);
  }

  /** A published route id that equals a deployment's route id stands for that
      deployment's environment and host: stale ids never hit newer routes. */
  lemma NoStaleHit(t: Tables, k: string, e: string, r: Route)
    requires Inv(t) && k in t.deployments && e in t.states && r in t.states[e].routes
    requires t.deployments[k].routeId == r.id
    ensures t.deployments[k].info.environment == e && t.deployments[k].info.host == r.host
  {
    assert OwnedIn(t, e, r);
    assert Agree(t, k, r.deploymentId);
  }

  /** Across all environments, no two routes share an id. */
  lemma RouteIdsUnique(t: Tables, e: string, i: nat, f: string, j: nat)
    requires Inv(t) && e in t.states && f in t.states
    requires i < |t.states[e].routes| && j < |t.states[f].routes|
    requires t.states[e].routes[i].id == t.states[f].routes[j].id
    ensures e == f && i == j
  {
    var r, q := t.states[e].routes[i], t.states[f].routes[j];
    assert r in t.states[e].routes && q in t.states[f].routes;
    assert OwnedIn(t, e, r);
    NoStaleHit(t, r.deploymentId, f, q);
    assert UniqueHosts(t.states[e].routes);
  }

  /** Removing a deployment whose route is gone changes no route anywhere. */
  lemma StaleRemovalKeepsRoutes(t: Tables, k: string, at: Time, f: string)
    requires Inv(t) && k in t.deployments
    requires forall r | r in RoutesOf(t, t.deployments[k].info.environment) :: r.id != t.deployments[k].routeId
    ensures RoutesOf(Remove(t, k, at), f) == RoutesOf(t, f)
  {
    var d := t.deployments[k];
    if d.routeId != "" {
      RemoveShape(t, k, at);
      WithoutNone(RoutesOf(t, d.info.environment), d.routeId);
    }
  }

  /** The id of a new route is held by no other deployment. */
  lemma NewRouteUnheld(t: Tables, t': Tables, id: string, e: string, k: string)
    requires Inv(t) && Publishes(t, t', id, e) && !Serves(RoutesOf(t, e), t'.deployments[id].info.host)
    requires k in t.deployments && k != id
    ensures t'.deployments[k].routeId == t.deployments[k].routeId != t'.deployments[id].routeId
  {
    Ids.NextIsFresh(Ids.RouteKind, t.routeSeq);
  }
}
