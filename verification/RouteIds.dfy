/** Route ids over time, between resets: an id that is withdrawn is never
    published again, an id stands for one place for good, and so an id that a
    deployment still holds can do no harm once its route is gone. */
module RouteIds {
  import opened Base
  import opened Machine
  import opened MachineInvariant
  import opened History
  import Ids
  import C = Commands
  import L = Lifecycle
  import R = Routing
  import RI = RoutingInvariant

  /** No route of any environment has the id. */
  ghost predicate Absent(t: R.Tables, x: string) {
    forall e, r | e in t.states && r in t.states[e].routes :: r.id != x
  }

  /** All holders of the id are deployments of one environment and host. */
  ghost predicate HeldAt(t: R.Tables, x: string, environment: string, host: string) {
    forall k | k in t.deployments && t.deployments[k].routeId == x ::
      t.deployments[k].info.environment == environment && t.deployments[k].info.host == host
  }

  ghost function IssuedRoutes(t: R.Tables): set<string> { Ids.Issued(Ids.RouteKind, t.routeSeq) }

  // ---- one effect ----

  /** A publication brings back no id that had been issued and is gone. */
  lemma PublishAbsent(t: R.Tables, t': R.Tables, id: string, e: string, x: string)
    requires RI.Inv(t) && RI.Publishes(t, t', id, e) && x in IssuedRoutes(t) && Absent(t, x)
    ensures Absent(t', x)
  {
    Ids.NextIsFresh(Ids.RouteKind, t.routeSeq);
    var host := t'.deployments[id].info.host;
    forall f, r | f in t'.states && r in t'.states[f].routes
      ensures r.id != x
    {
      if f == e && r.host == host {
        if q :| q in R.RoutesOf(t, e) && q.host == host {
          assert q.id == r.id;
        }
      } else {
        assert f in t.states && r in t.states[f].routes;
      }
    }
  }

  lemma EffectAbsent(t: R.Tables, e: R.Effect, x: string)
    requires RI.Inv(t) && R.Enabled(t, e) && x in IssuedRoutes(t) && Absent(t, x)
    ensures Absent(R.Apply(t, e), x)
  {
    if !Bumps(t, e) {
      QuietStep(t, e);
    } else if e.Deploys? {
      RI.DeployPublishes(t, e.dep, e.ip, e.port, e.at);
      PublishAbsent(t, R.Apply(t, e), e.dep, t.deployments[e.dep].info.environment, x);
    } else {
      RI.RemoveWithdraws(t, e.dep, e.at);
    }
  }

  /** A publication gives an issued id to no deployment of another place. */
  lemma PublishHeldAt(t: R.Tables, t': R.Tables, id: string, e: string, x: string, environment: string, host: string)
    requires RI.Inv(t) && RI.Publishes(t, t', id, e) && x in IssuedRoutes(t) && HeldAt(t, x, environment, host)
    ensures HeldAt(t', x, environment, host)
  {
    Ids.NextIsFresh(Ids.RouteKind, t.routeSeq);
    var d' := t'.deployments[id];
    if d'.routeId == x {
      if q :| q in R.RoutesOf(t, e) && q.host == d'.info.host {
        assert RI.OwnedIn(t, e, q);
      }
    }
  }

  lemma EffectHeldAt(t: R.Tables, e: R.Effect, x: string, environment: string, host: string)
    requires RI.Inv(t) && R.Enabled(t, e) && x != "" && x in IssuedRoutes(t) && HeldAt(t, x, environment, host)
    ensures HeldAt(R.Apply(t, e), x, environment, host)
  {
    if !Bumps(t, e) {
      QuietStep(t, e);
    } else if e.Deploys? {
      RI.DeployPublishes(t, e.dep, e.ip, e.port, e.at);
      PublishHeldAt(t, R.Apply(t, e), e.dep, t.deployments[e.dep].info.environment, x, environment, host);
    } else {
      RI.RemoveWithdraws(t, e.dep, e.at);
    }
  }

  /** Unless it is published, a deployment keeps its route id or gives it up. */
  lemma EffectHolding(t: R.Tables, e: R.Effect, k: string)
    requires RI.Inv(t) && R.Enabled(t, e) && k in t.deployments && !(e.Deploys? && e.dep == k)
    ensures k in R.Apply(t, e).deployments
    ensures R.Apply(t, e).deployments[k].routeId == t.deployments[k].routeId || R.Apply(t, e).deployments[k].routeId == ""
  {
    if !Bumps(t, e) {
      QuietStep(t, e);
    } else if e.Deploys? {
      DeploymentStep(t, e, k);
    } else {
      RI.RemoveWithdraws(t, e.dep, e.at);
    }
  }

  /** The effect removes a deployment that holds the id. */
  predicate GivesUp(t: R.Tables, e: R.Effect, x: string) {
    e.Removes? && e.dep in t.deployments && t.deployments[e.dep].routeId == x
  }

  /** A publication keeps every id published that was. */
  lemma PublishKeepsPublished(t: R.Tables, t': R.Tables, id: string, e: string, f: string, q: R.Route)
    requires RI.Publishes(t, t', id, e) && f in t.states && q in t.states[f].routes
    ensures !Absent(t', q.id)
  {
    if f == e && q.host == t'.deployments[id].info.host {
      var r :| r in t'.states[e].routes && r.host == q.host;
      assert r.id == q.id;
    } else {
      assert f in t'.states && q in t'.states[f].routes;
    }
  }

  /** A withdrawal takes a published id out exactly when it is the one given up. */
  lemma WithdrawTakesHeld(t: R.Tables, t': R.Tables, id: string, e: string, f: string, q: R.Route)
    requires RI.Inv(t) && RI.Withdraws(t, t', id, e) && f in t.states && q in t.states[f].routes
    ensures Absent(t', q.id) <==> t.deployments[id].routeId == q.id
  {
    if t.deployments[id].routeId == q.id {
      forall g, r | g in t'.states && r in t'.states[g].routes
        ensures r.id != q.id
      {
        if r.id == q.id {
          assert g in t.states && r in t.states[g].routes;
          RI.NoStaleHit(t, id, g, r);
        }
      }
    } else {
      assert f in t'.states && q in t'.states[f].routes;
    }
  }

  lemma EffectPublished(t: R.Tables, e: R.Effect, f: string, q: R.Route)
    requires RI.Inv(t) && R.Enabled(t, e) && f in t.states && q in t.states[f].routes
    ensures Absent(R.Apply(t, e), q.id) <==> GivesUp(t, e, q.id)
  {
    RI.OwnedIdIssued(t, f, q);
    hide RI.Inv;
    if !Bumps(t, e) {
      QuietStep(t, e);
    } else if e.Deploys? {
      RI.DeployPublishes(t, e.dep, e.ip, e.port, e.at);
      PublishKeepsPublished(t, R.Apply(t, e), e.dep, t.deployments[e.dep].info.environment, f, q);
    } else {
      RI.RemoveWithdraws(t, e.dep, e.at);
      WithdrawTakesHeld(t, R.Apply(t, e), e.dep, t.deployments[e.dep].info.environment, f, q);
    }
  }

  // ---- whole runs ----

  lemma StillIssued(ss: seq<State>, ops: seq<Op>, i: nat, j: nat, x: string)
    requires Trace(ss, ops) && i <= j <= |ops| && x in IssuedRoutes(ss[i].tables)
    ensures x in IssuedRoutes(ss[j].tables)
  {
    L.IdsNeverReturn(ss, ops, i, j, Ids.RouteKind);
  }

  /** A withdrawn route id is never published again, in any environment. */
  lemma {:induction false} WithdrawnNeverReturns(ss: seq<State>, ops: seq<Op>, i: nat, j: nat, x: string)
    requires Trace(ss, ops) && i <= j <= |ops| && x in IssuedRoutes(ss[i].tables) && Absent(ss[i].tables, x)
    ensures Absent(ss[j].tables, x)
    decreases j - i
  {
    hide LeadsThrough, Absent, IssuedRoutes, RI.Inv, R.Apply, EffectOf, Conserved, Fenced, Settled, QueueAfter;
    hide RI.Keyed;
    if i < j {
      WithdrawnNeverReturns(ss, ops, i, j - 1, x);
      StillIssued(ss, ops, i, j - 1, x);
      var e := EffectAt(ss, ops, j - 1);
      EffectAbsent(ss[j - 1].tables, e, x);
    }
  }

  lemma {:induction false} HeldAtStays(ss: seq<State>, ops: seq<Op>, i: nat, j: nat, x: string, environment: string,
                                       host: string)
    requires Trace(ss, ops) && i <= j <= |ops| && x != "" && x in IssuedRoutes(ss[i].tables)
    requires HeldAt(ss[i].tables, x, environment, host)
    ensures HeldAt(ss[j].tables, x, environment, host)
    decreases j - i
  {
    hide LeadsThrough, HeldAt, IssuedRoutes, RI.Inv, R.Apply, EffectOf, QueueAfter, Next, Inv;
    if i < j {
      HeldAtStays(ss, ops, i, j - 1, x, environment, host);
      StillIssued(ss, ops, i, j - 1, x);
      var e := EffectAt(ss, ops, j - 1);
      EffectHeldAt(ss[j - 1].tables, e, x, environment, host);
    }
  }

  lemma HolderPlace(t: R.Tables, k: string)
    requires RI.Inv(t) && k in t.deployments && t.deployments[k].routeId != ""
    ensures var d := t.deployments[k];
            d.routeId in IssuedRoutes(t) && HeldAt(t, d.routeId, d.info.environment, d.info.host)
  {
    forall l | l in t.deployments && t.deployments[l].routeId == t.deployments[k].routeId
      ensures RI.SamePlace(t.deployments[k], t.deployments[l])
    {
      assert RI.Agree(t, k, l);
    }
  }

  /** Where the holders of an id are, there are the routes that carry it. */
  lemma PlaceHolds(t: R.Tables, x: string, environment: string, host: string)
    requires RI.Inv(t) && HeldAt(t, x, environment, host)
    ensures forall l | l in t.deployments && t.deployments[l].routeId == x ::
              t.deployments[l].info.environment == environment && t.deployments[l].info.host == host
    ensures forall e, r | r in R.RoutesOf(t, e) && r.id == x :: e == environment && r.host == host
  {
    forall e, r | r in R.RoutesOf(t, e) && r.id == x
      ensures e == environment && r.host == host
    {
      assert RI.OwnedIn(t, e, r);
    }
  }

  /** A route id stands for one place for good: whoever holds it, and whatever
      route carries it, at any later time, is of the environment and host of the
      deployment that held it first. */
  lemma IdStandsForOnePlace(ss: seq<State>, ops: seq<Op>, i: nat, j: nat, k: string)
    requires Trace(ss, ops) && i <= j <= |ops|
    requires k in ss[i].tables.deployments && ss[i].tables.deployments[k].routeId != ""
    ensures var d := ss[i].tables.deployments[k];
            && (forall l | l in ss[j].tables.deployments && ss[j].tables.deployments[l].routeId == d.routeId ::
                  RI.SamePlace(ss[j].tables.deployments[l], d))
            && (forall e, r | r in R.RoutesOf(ss[j].tables, e) && r.id == d.routeId ::
                  e == d.info.environment && r.host == d.info.host)
  {
    hide LeadsThrough, HeldAt, IssuedRoutes, RI.Inv;
    var d := ss[i].tables.deployments[k];
    TablesGood(ss, ops, i);
    HolderPlace(ss[i].tables, k);
    HeldAtStays(ss, ops, i, j, d.routeId, d.info.environment, d.info.host);
    TablesGood(ss, ops, j);
    PlaceHolds(ss[j].tables, d.routeId, d.info.environment, d.info.host);
  }

  /** Deployment k has not been published in steps i to j. */
  ghost predicate NotDeployed(ss: seq<State>, ops: seq<Op>, i: nat, j: nat, k: string)
    requires j <= |ops| <= |ss|
  {
    forall m | i <= m < j :: !DeploySuccess(ss[m], ops[m], k)
  }

  lemma DeploysIsSuccess(s: State, op: Op, k: string)
    ensures EffectOf(s, op).Deploys? && EffectOf(s, op).dep == k ==> DeploySuccess(s, op, k)
  {
  }

  lemma {:induction false} HoldingStays(ss: seq<State>, ops: seq<Op>, i: nat, j: nat, k: string)
    requires Trace(ss, ops) && i <= j <= |ops| && k in ss[i].tables.deployments && NotDeployed(ss, ops, i, j, k)
    ensures k in ss[j].tables.deployments
    ensures ss[j].tables.deployments[k].routeId == ss[i].tables.deployments[k].routeId
            || ss[j].tables.deployments[k].routeId == ""
    decreases j - i
  {
    if i < j {
      HoldingStays(ss, ops, i, j - 1, k);
      var e := EffectAt(ss, ops, j - 1);
      DeploysIsSuccess(ss[j - 1], ops[j - 1], k);
      EffectHolding(ss[j - 1].tables, e, k);
    }
  }

  /** A deployment whose route was gone at i and that has not been published
      since may be removed at any later time, however often its host was
      published anew in between: no route of any environment changes. */
  lemma FormerHolderRemovesNothing(ss: seq<State>, ops: seq<Op>, i: nat, j: nat, k: string, at: Time, f: string)
    requires Trace(ss, ops) && i <= j <= |ops| && k in ss[i].tables.deployments && NotDeployed(ss, ops, i, j, k)
    requires Absent(ss[i].tables, ss[i].tables.deployments[k].routeId)
    ensures k in ss[j].tables.deployments
    ensures R.RoutesOf(R.Remove(ss[j].tables, k, at), f) == R.RoutesOf(ss[j].tables, f)
  {
    hide LeadsThrough, QueueAfter, Next, Inv, RI.Keyed, RI.Versioned;
    var x := ss[i].tables.deployments[k].routeId;
    HoldingStays(ss, ops, i, j, k);
    TablesGood(ss, ops, i);
    TablesGood(ss, ops, j);
    if ss[j].tables.deployments[k].routeId != "" {
      WithdrawnNeverReturns(ss, ops, i, j, x);
      RI.StaleRemovalKeepsRoutes(ss[j].tables, k, at, f);
    }
  }

  /** The step is an accepted success report of a remove command about a
      deployment that holds the id. */
  predicate RemoveSuccess(s: State, op: Op, x: string) {
    && Finishes(s, op) && op.report.status == C.ReportedSucceeded
    && var c := s.queue.commands[op.id];
       && c.info.kind == C.RemoveDeployment && C.Target(c, op.report) in s.tables.deployments
       && s.tables.deployments[C.Target(c, op.report)].routeId == x
  }

  lemma RemoveSuccessGivesUp(s: State, op: Op, x: string)
    ensures GivesUp(s.tables, EffectOf(s, op), x) <==> RemoveSuccess(s, op, x)
  {
  }

  lemma PublishedAtNext(ss: seq<State>, ops: seq<Op>, i: nat, x: string)
    requires Trace(ss, ops) && i < |ops| && !Absent(ss[i].tables, x)
    ensures Absent(ss[i + 1].tables, x) <==> RemoveSuccess(ss[i], ops[i], x)
    ensures x in IssuedRoutes(ss[i].tables)
  {
    hide LeadsThrough, RI.Inv, R.Apply, EffectOf, GivesUp, RemoveSuccess;
    var e := EffectAt(ss, ops, i);
    var t := ss[i].tables;
    var f, q :| f in t.states && q in t.states[f].routes && q.id == x;
    RI.OwnedIdIssued(t, f, q);
    EffectPublished(t, e, f, q);
    RemoveSuccessGivesUp(ss[i], ops[i], x);
  }

  /** A published id stays published exactly until a deployment that then holds
      it is removed, whatever else happens to its host. */
  lemma {:induction false} PublishedUntilRemoval(ss: seq<State>, ops: seq<Op>, i: nat, j: nat, x: string)
    requires Trace(ss, ops) && i <= j <= |ops| && !Absent(ss[i].tables, x)
    ensures !Absent(ss[j].tables, x) <==> forall m | i <= m < j :: !RemoveSuccess(ss[m], ops[m], x)
    decreases j - i
  {
    hide LeadsThrough, Absent, IssuedRoutes, RemoveSuccess;
    if i < j {
      PublishedUntilRemoval(ss, ops, i, j - 1, x);
      if Absent(ss[j - 1].tables, x) {
        PublishedAtNext(ss, ops, i, x);
        StillIssued(ss, ops, i, j - 1, x);
        WithdrawnNeverReturns(ss, ops, j - 1, j, x);
      } else {
        PublishedAtNext(ss, ops, j - 1, x);
      }
    }
  }
}
