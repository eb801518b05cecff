/** Whether the routes of deployments that wait for a verdict, or have one, are
    still published: the verdict of a gateway does not ask. */
module Serving {
  import opened Base
  import opened Machine
  import opened MachineInvariant
  import opened History
  import opened RouteIds
  import Ids
  import C = Commands
  import R = Routing
  import RI = RoutingInvariant
  import RO = RouteOwnership

  /** Some published route names k as its deployment. */
  ghost predicate Names(t: R.Tables, k: string) {
    exists e, r :: e in t.states && r in t.states[e].routes && r.deploymentId == k
  }

  /** The effect publishes another deployment of k's environment and host, or
      removes a deployment that holds k's route id. */
  predicate Ousts(t: R.Tables, e: R.Effect, k: string)
    requires k in t.deployments
  {
    match e
    case Deploys(dep, _, _, _) =>
      && dep != k && dep in t.deployments && R.Routed(t.deployments[dep])
      && t.deployments[dep].info.environment == t.deployments[k].info.environment
      && t.deployments[dep].info.host == t.deployments[k].info.host
    case Removes(dep, _) => dep in t.deployments && t.deployments[dep].routeId == t.deployments[k].routeId
    case _ => false
  }

  // ---- one effect ----

  lemma NamedIsOwned(t: R.Tables, f: string, r: R.Route)
    requires RI.Inv(t) && f in t.states && r in t.states[f].routes
    ensures r.deploymentId in t.deployments
    ensures var d := t.deployments[r.deploymentId];
            && f == d.info.environment && r.host == d.info.host && r.id == d.routeId
            && r.upstream == Ids.BuildUpstream(d.runtimePrivateIP, d.hostPort)
  {
    assert RI.OwnedIn(t, f, r);
  }

  lemma PublishNames(t: R.Tables, t': R.Tables, id: string, e: string, k: string)
    requires RI.Inv(t) && RI.Publishes(t, t', id, e) && k in t.deployments && k != id
    ensures Names(t', k) <==>
            && Names(t, k)
            && !(t.deployments[k].info.environment == e && t.deployments[k].info.host == t'.deployments[id].info.host)
  {
    if f, r :| f in t'.states && r in t'.states[f].routes && r.deploymentId == k {
      assert f in t.states && r in t.states[f].routes;
      NamedIsOwned(t, f, r);
    }
    if f, r :| f in t.states && r in t.states[f].routes && r.deploymentId == k {
      NamedIsOwned(t, f, r);
      assert !(f == e && r.host == t'.deployments[id].info.host) ==> f in t'.states && r in t'.states[f].routes;
    }
  }

  lemma WithdrawNames(t: R.Tables, t': R.Tables, id: string, e: string, k: string)
    requires RI.Inv(t) && RI.Withdraws(t, t', id, e) && k in t.deployments
    ensures Names(t', k) <==> Names(t, k) && t.deployments[id].routeId != t.deployments[k].routeId
  {
    if f, r :| f in t'.states && r in t'.states[f].routes && r.deploymentId == k {
      assert f in t.states && r in t.states[f].routes;
      NamedIsOwned(t, f, r);
      RI.NoStaleHit(t, k, f, r);
      assert t.deployments[id].routeId == r.id ==> t.deployments[id].info.environment == f by {
        if t.deployments[id].routeId == r.id {
          RI.NoStaleHit(t, id, f, r);
        }
      }
    }
    if f, r :| f in t.states && r in t.states[f].routes && r.deploymentId == k {
      NamedIsOwned(t, f, r);
      assert t.deployments[id].routeId != r.id ==> f in t'.states && r in t'.states[f].routes;
    }
  }

  /** A deployment that is not published itself goes on being named exactly
      until it is ousted. */
  lemma EffectNames(t: R.Tables, e: R.Effect, k: string)
    requires RI.Inv(t) && R.Enabled(t, e) && k in t.deployments && t.deployments[k].routeId != ""
    requires !(e.Deploys? && e.dep == k)
    ensures Names(R.Apply(t, e), k) <==> Names(t, k) && !Ousts(t, e, k)
  {
    hide RI.Inv, Names;
    if !Bumps(t, e) {
      QuietStep(t, e);
      QuietNames(t, R.Apply(t, e), k);
    } else if e.Deploys? {
      RO.DeployStep(t, e);
      PublishNames(t, R.Apply(t, e), e.dep, t.deployments[e.dep].info.environment, k);
    } else {
      RO.RemoveStep(t, e);
      WithdrawNames(t, R.Apply(t, e), e.dep, t.deployments[e.dep].info.environment, k);
    }
  }

  lemma QuietNames(t: R.Tables, t': R.Tables, k: string)
    requires Quietly(t, t')
    ensures Names(t', k) <==> Names(t, k)
  {
  }

  // ---- whole runs ----

  /** The step is an accepted success report that ousts k: of a deploy command
      about another routed deployment of k's environment and host, or of a remove
      command about a deployment that holds k's route id. */
  predicate OustedBy(s: State, op: Op, k: string) {
    && k in s.tables.deployments && Finishes(s, op) && op.report.status == C.ReportedSucceeded
    && var c, d := s.queue.commands[op.id], s.tables.deployments[k];
       var l := C.Target(c, op.report);
       && l in s.tables.deployments
       && var o := s.tables.deployments[l];
          || (&& c.info.kind == C.DeployApplication && l != k && R.Routed(o)
              && o.info.environment == d.info.environment && o.info.host == d.info.host)
          || (c.info.kind == C.RemoveDeployment && o.routeId == d.routeId)
  }

  lemma OustsIsOustedBy(s: State, op: Op, k: string)
    requires k in s.tables.deployments
    ensures Ousts(s.tables, EffectOf(s, op), k) <==> OustedBy(s, op, k)
  {
  }

  /** No step between i and j ousts k. */
  ghost predicate Undisturbed(ss: seq<State>, ops: seq<Op>, i: nat, j: nat, k: string)
    requires j <= |ops| <= |ss|
  {
    forall m | i < m < j :: !OustedBy(ss[m], ops[m], k)
  }

  lemma PendingHolds(t: R.Tables, k: string)
    requires RI.Inv(t) && k in t.deployments && t.deployments[k].status == R.RoutePending
    ensures t.deployments[k].routeId != ""
  {
    assert RI.StatusOk(t.deployments[k]);
  }

  lemma NamesAt(ss: seq<State>, ops: seq<Op>, m: nat, k: string)
    requires Trace(ss, ops) && m < |ops| && Is(ss[m], k, R.RoutePending) && !DeploySuccess(ss[m], ops[m], k)
    ensures Names(ss[m + 1].tables, k) <==> Names(ss[m].tables, k) && !OustedBy(ss[m], ops[m], k)
  {
    hide LeadsThrough, RI.Inv, R.Apply, EffectOf, Names, Ousts, OustedBy, DeploySuccess;
    var e := EffectAt(ss, ops, m);
    PendingHolds(ss[m].tables, k);
    DeploysIsSuccess(ss[m], ops[m], k);
    EffectNames(ss[m].tables, e, k);
    OustsIsOustedBy(ss[m], ops[m], k);
  }

  lemma PublishedIsNamed(s: State, k: string)
    requires RI.Inv(s.tables) && k in s.tables.deployments
    ensures PublishedAt(s, k) <==> Names(s.tables, k)
  {
    if PublishedAt(s, k) {
      var r :| r in R.RoutesOf(s.tables, s.tables.deployments[k].info.environment) && r.deploymentId == k;
      assert s.tables.deployments[k].info.environment in s.tables.states;
    }
    if f, r :| f in s.tables.states && r in s.tables.states[f].routes && r.deploymentId == k {
      NamedIsOwned(s.tables, f, r);
      assert r in R.RoutesOf(s.tables, f);
    }
  }

  lemma {:induction false} NamedWhileUndisturbed(ss: seq<State>, ops: seq<Op>, i: nat, j: nat, k: string, d: R.Deployment)
    requires Trace(ss, ops) && PublishedSince(ss, ops, i, j, k, d) && d.status == R.RoutePending
    ensures Names(ss[j].tables, k) <==> Undisturbed(ss, ops, i, j, k)
    decreases j
  {
    hide LeadsThrough, Names, OustedBy, DeploySuccess, PublishedAt;
    if j == i + 1 {
      assert Shows(ss, j, k, d);
      TablesGood(ss, ops, j);
      PublishedIsNamed(ss[j], k);
    } else {
      assert Shows(ss, j - 1, k, d);
      NamedWhileUndisturbed(ss, ops, i, j - 1, k, d);
      NamesAt(ss, ops, j - 1, k);
    }
  }

  lemma JudgedWaits(ss: seq<State>, ops: seq<Op>, j: nat, k: string)
    requires Trace(ss, ops) && j < |ops|
    requires k in ss[j + 1].tables.deployments && IsVerdict(ss[j + 1].tables.deployments[k].status)
    requires !Is(ss[j], k, ss[j + 1].tables.deployments[k].status)
    ensures Is(ss[j], k, R.RoutePending)
  {
    hide LeadsThrough, IsVerdict;
    VerdictAt(ss, ops, j, k);
  }

  /** When a gateway report turns k to a verdict, k's host is served by k at its
      address exactly when nothing has ousted k since its latest publication: the
      verdict itself does not look at the routes. */
  lemma VerdictMeetsRouteIff(ss: seq<State>, ops: seq<Op>, j: nat, k: string) returns (i: nat)
    requires Trace(ss, ops) && ss[0] == INITIAL && j < |ops|
    requires k in ss[j + 1].tables.deployments && IsVerdict(ss[j + 1].tables.deployments[k].status)
    requires !Is(ss[j], k, ss[j + 1].tables.deployments[k].status)
    ensures k in ss[j].tables.deployments && PublishedSince(ss, ops, i, j, k, ss[j].tables.deployments[k])
    ensures PublishedAt(ss[j], k) <==> Undisturbed(ss, ops, i, j, k)
  {
    hide LeadsThrough, Names, OustedBy, DeploySuccess, PublishedAt, IsVerdict, Undisturbed;
    i := ActivationFollowsPublication(ss, ops, j, k);
    JudgedWaits(ss, ops, j, k);
    NamedWhileUndisturbed(ss, ops, i, j, k, ss[j].tables.deployments[k]);
    TablesGood(ss, ops, j);
    PublishedIsNamed(ss[j], k);
  }

  // ---- live deployments ----

  lemma HasRouteIsPresent(t: R.Tables, k: string)
    requires RI.Inv(t) && k in t.deployments && t.deployments[k].routeId != ""
    ensures RO.HasRoute(t, k) <==> !Absent(t, t.deployments[k].routeId)
  {
    if e, r :| e in t.states && r in t.states[e].routes && r.id == t.deployments[k].routeId {
      RI.NoStaleHit(t, k, e, r);
      assert r in R.RoutesOf(t, t.deployments[k].info.environment);
    }
  }

  lemma PublishedHasRoute(s: State, k: string)
    requires PublishedAt(s, k)
    ensures RO.HasRoute(s.tables, k)
  {
  }

  /** A deployment that is live has its route published exactly when, since its
      latest publication, no deployment was removed while it held the route id. */
  lemma LiveHasRouteIff(ss: seq<State>, ops: seq<Op>, i: nat, j: nat, k: string)
    requires Trace(ss, ops) && i < j <= |ops| && DeploySuccess(ss[i], ops[i], k) && Is(ss[i + 1], k, R.RoutePending)
    requires NotDeployed(ss, ops, i + 1, j, k)
    requires k in ss[j].tables.deployments && RI.Live(ss[j].tables.deployments[k].status)
    ensures RO.HasRoute(ss[j].tables, k) <==>
            forall m | i < m < j :: !RemoveSuccess(ss[m], ops[m], ss[j].tables.deployments[k].routeId)
  {
    hide LeadsThrough, RI.Inv, DeploySuccess, RemoveSuccess, Absent, PublishedAt, RO.HasRoute, Conserved, Fenced;
    hide Settled, Next, Inv;
    SuccessPublishes(ss, ops, i, k);
    TablesGood(ss, ops, i + 1);
    TablesGood(ss, ops, j);
    PendingHolds(ss[i + 1].tables, k);
    PublishedHasRoute(ss[i + 1], k);
    HasRouteIsPresent(ss[i + 1].tables, k);
    HoldingStays(ss, ops, i + 1, j, k);
    RO.LiveHolds(ss[j].tables, k);
    HasRouteIsPresent(ss[j].tables, k);
    PublishedUntilRemoval(ss, ops, i + 1, j, ss[j].tables.deployments[k].routeId);
  }
}
