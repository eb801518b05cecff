/** Runs in which the store does what one might not expect, for every choice of
    the inputs.  They show that the conditions of RouteOwnership and Lifecycle
    cannot be dropped. */
module Surprises {
  import opened Base
  import opened Machine
  import Ids
  import C = Commands
  import R = Routing
  import RI = RoutingInvariant
  import MI = MachineInvariant

  function Success(ip: string, port: int): C.ReportInput {
    C.ReportInput("", "", C.ReportedSucceeded, C.Result("", ip, port), None)
  }

  /** Running two sequences one after the other. */
  lemma {:induction false} RunAppend(s: State, a: seq<Op>, b: seq<Op>)
    ensures Run(s, a + b) == Run(Run(s, a), b)
  {
    if b == [] {
      assert a + b == a;
    } else {
      var n := |b| - 1;
      RunAppend(s, a, b[..n]);
      assert (a + b)[..|a + b| - 1] == a + b[..n];
    }
  }

  lemma RunThree(s: State, p: Op, q: Op, r: Op)
    ensures Run(s, [p, q, r]) == Next(Next(Next(s, p), q), r)
  {
    RunSnoc(s, [], p);
    RunSnoc(s, [p], q);
    RunSnoc(s, [p, q], r);
    assert [] + [p] == [p] && [p] + [q] == [p, q] && [p, q] + [r] == [p, q, r];
  }

  /** Create, claim and report success: the whole life of a command. */
  function Ordered(s: State, kind: C.CommandKind, dep: string, agent: string): seq<Op> {
    [CreateCommand(CommandInput(kind, dep, agent, 0, ""), 0),
     ClaimCommand(NextCommandId(s), agent, 0),
     ReportCommand(NextCommandId(s), Success("", 0), 0, 0)]
  }

  function Deployed(s: State, d: DeployInput, ip: string, port: int): seq<Op> {
    [InitDeploy(d, 0),
     ClaimCommand(NextCommandId(s), d.targetAgentId, 0),
     ReportCommand(NextCommandId(s), Success(ip, port), 0, 0)]
  }

  /** A command that is there, waiting for its agent. */
  predicate Awaits(s: State, id: string, kind: C.CommandKind, dep: string, agent: string) {
    && id in s.queue.commands && s.queue.commands[id].status == C.Pending
    && s.queue.commands[id].info.kind == kind && s.queue.commands[id].info.deploymentId == dep
    && s.queue.commands[id].info.targetAgentId == agent
  }

  lemma Carried(s: State, id: string, kind: C.CommandKind, dep: string, agent: string, ip: string, port: int)
    requires Awaits(s, id, kind, dep, agent)
    ensures var s1 := Next(s, ClaimCommand(id, agent, 0));
            && s1.tables == s.tables
            && Next(s1, ReportCommand(id, Success(ip, port), 0, 0)).tables ==
               R.Apply(s.tables, SuccessEffect(kind, dep, C.Result("", ip, port), 0))
  {
  }

  lemma DeployedTables(s: State, d: DeployInput, ip: string, port: int)
    ensures Run(s, Deployed(s, d, ip, port)).tables ==
            R.Deploy(R.Create(s.tables, DeploymentInfoOf(d, NextDeploymentId(s), 0), NextCommandId(s)),
                     NextDeploymentId(s), ip, port, 0)
  {
    var s1 := Next(s, InitDeploy(d, 0));
    hide Run, R.Create, R.Deploy, DeploymentInfoOf;
    Carried(s1, NextCommandId(s), C.DeployApplication, NextDeploymentId(s), d.targetAgentId, ip, port);
    RunThree(s, Deployed(s, d, ip, port)[0], Deployed(s, d, ip, port)[1], Deployed(s, d, ip, port)[2]);
  }

  lemma OrderedTables(s: State, kind: C.CommandKind, dep: string, agent: string)
    ensures Run(s, Ordered(s, kind, dep, agent)).tables ==
            R.Apply(s.tables, SuccessEffect(kind, dep, C.Result("", "", 0), 0))
  {
    var s1 := Next(s, CreateCommand(CommandInput(kind, dep, agent, 0, ""), 0));
    Carried(s1, NextCommandId(s), kind, dep, agent, "", 0);
    RunThree(s, Ordered(s, kind, dep, agent)[0], Ordered(s, kind, dep, agent)[1], Ordered(s, kind, dep, agent)[2]);
  }

  // ---- a live deployment without a route ----

  predicate Routable(d: DeployInput) { d.requiresRoute && d.host != "" }

  /** Tables in which one deployment serves the only route of an environment. */
  ghost predicate ServesAlone(t: R.Tables, e: string, host: string, dep: string, id: string) {
    && dep in t.deployments && R.Routed(t.deployments[dep]) && t.deployments[dep].routeId == id != ""
    && t.deployments[dep].info.environment == e && t.deployments[dep].info.host == host
    && e in t.states && |R.RoutesOf(t, e)| == 1 && R.RoutesOf(t, e)[0].host == host && R.RoutesOf(t, e)[0].id == id
  }

  lemma FirstServesAlone(info: R.DeploymentInfo, c: string, ip: string, port: int)
    requires info.requiresRoute && info.host != ""
    ensures var t := R.Deploy(R.Create(R.EMPTY, info, c), info.id, ip, port, 0);
            ServesAlone(t, info.environment, info.host, info.id, Ids.Route(1))
  {
    var t := R.Create(R.EMPTY, info, c);
    RI.DeployShape(t, info.id, ip, port, 0);
    assert R.RoutesOf(t, info.environment) == [];
    assert |Ids.Route(1)| > 0;
  }

  /** A second deployment on the host takes the route over, id and all. */
  lemma SecondTakesOver(t: R.Tables, old1: string, info: R.DeploymentInfo, c: string, ip: string, port: int, id: string)
    requires info.requiresRoute && info.host != "" && info.id !in t.deployments
    requires ServesAlone(t, info.environment, info.host, old1, id)
    ensures var t' := R.Deploy(R.Create(t, info, c), info.id, ip, port, 0);
            && ServesAlone(t', info.environment, info.host, old1, id)
            && ServesAlone(t', info.environment, info.host, info.id, id)
            && t'.deployments[info.id].status == R.RoutePending
  {
    var t1 := R.Create(t, info, c);
    RI.DeployShape(t1, info.id, ip, port, 0);
  }

  /** Removing the first then removes the route of the second. */
  lemma FirstTakesRoute(t: R.Tables, e: string, host: string, old1: string, new1: string, id: string)
    requires ServesAlone(t, e, host, old1, id) && ServesAlone(t, e, host, new1, id) && old1 != new1
    requires t.deployments[new1].status == R.RoutePending
    ensures var t' := R.Remove(t, old1, 0);
            && R.Within(t', new1, e) && t'.deployments[new1].status == R.RoutePending && R.RoutesOf(t', e) == []
  {
    RI.RemoveShape(t, old1, 0);
    var rs := R.RoutesOf(t, e);
    assert rs == [rs[0]];
    assert rs[..0] == [] && R.Without(rs, id) == [];
  }

  function Rollover(d: DeployInput, d': DeployInput, ip: string, ip': string, port: int, port': int, agent: string): seq<Op> {
    var s1 := Run(INITIAL, Deployed(INITIAL, d, ip, port));
    var s2 := Run(s1, Deployed(s1, d', ip', port'));
    Deployed(INITIAL, d, ip, port) + Deployed(s1, d', ip', port')
    + Ordered(s2, C.RemoveDeployment, Ids.Deployment(1), agent)
  }

  lemma FirstDeployed(d: DeployInput, ip: string, port: int)
    requires Routable(d)
    ensures var s := Run(INITIAL, Deployed(INITIAL, d, ip, port));
            && ServesAlone(s.tables, d.environment, d.host, Ids.Deployment(1), Ids.Route(1))
            && NextDeploymentId(s) == Ids.Deployment(2) && s.tables.deployments.Keys == {Ids.Deployment(1)}
  {
    hide EffectOf, Next;
    var info := DeploymentInfoOf(d, NextDeploymentId(INITIAL), 0);
    DeployedTables(INITIAL, d, ip, port);
    FirstServesAlone(info, NextCommandId(INITIAL), ip, port);
    RI.DeployShape(R.Create(R.EMPTY, info, NextCommandId(INITIAL)), info.id, ip, port, 0);
  }

  lemma SecondDeployed(s: State, d: DeployInput, ip: string, port: int)
    requires Routable(d) && ServesAlone(s.tables, d.environment, d.host, Ids.Deployment(1), Ids.Route(1))
    requires NextDeploymentId(s) == Ids.Deployment(2) && s.tables.deployments.Keys == {Ids.Deployment(1)}
    ensures var t := Run(s, Deployed(s, d, ip, port)).tables;
            && ServesAlone(t, d.environment, d.host, Ids.Deployment(1), Ids.Route(1))
            && ServesAlone(t, d.environment, d.host, Ids.Deployment(2), Ids.Route(1))
            && t.deployments[Ids.Deployment(2)].status == R.RoutePending && Ids.Deployment(1) != Ids.Deployment(2)
  {
    hide EffectOf, Next;
    if Ids.Deployment(1) == Ids.Deployment(2) {
      Ids.IdInjective(Ids.DeploymentKind, 1, Ids.DeploymentKind, 2);
    }
    DeployedTables(s, d, ip, port);
    SecondTakesOver(s.tables, Ids.Deployment(1), DeploymentInfoOf(d, Ids.Deployment(2), 0), NextCommandId(s), ip, port,
                    Ids.Route(1));
  }

  lemma RemovalStrands(s: State, e: string, host: string, agent: string)
    requires ServesAlone(s.tables, e, host, Ids.Deployment(1), Ids.Route(1))
    requires ServesAlone(s.tables, e, host, Ids.Deployment(2), Ids.Route(1)) && Ids.Deployment(1) != Ids.Deployment(2)
    requires s.tables.deployments[Ids.Deployment(2)].status == R.RoutePending
    ensures var t := Run(s, Ordered(s, C.RemoveDeployment, Ids.Deployment(1), agent)).tables;
            && R.Within(t, Ids.Deployment(2), e) && t.deployments[Ids.Deployment(2)].status == R.RoutePending
            && R.RoutesOf(t, e) == []
  {
    hide Run, Ordered, R.Remove, ServesAlone, R.RoutesOf, Ids.Deployment, Ids.Route;
    OrderedTables(s, C.RemoveDeployment, Ids.Deployment(1), agent);
    FirstTakesRoute(s.tables, e, host, Ids.Deployment(1), Ids.Deployment(2), Ids.Route(1));
  }

  lemma RolloverInThree(d: DeployInput, d': DeployInput, ip: string, ip': string, port: int, port': int, agent: string)
    ensures var s1 := Run(INITIAL, Deployed(INITIAL, d, ip, port));
            var s2 := Run(s1, Deployed(s1, d', ip', port'));
            Run(INITIAL, Rollover(d, d', ip, ip', port, port', agent)) ==
            Run(s2, Ordered(s2, C.RemoveDeployment, Ids.Deployment(1), agent))
  {
    var a := Deployed(INITIAL, d, ip, port);
    var s1 := Run(INITIAL, a);
    var b := Deployed(s1, d', ip', port');
    var s2 := Run(s1, b);
    RunAppend(INITIAL, a, b);
    RunAppend(INITIAL, a + b, Ordered(s2, C.RemoveDeployment, Ids.Deployment(1), agent));
  }

  /** A new release on a host, then the removal of the old one: whatever the
      inputs, the new release waits for a verdict on a route that is gone. */
  lemma RolloverStrands(d: DeployInput, d': DeployInput, ip: string, ip': string, port: int, port': int, agent: string)
    requires Routable(d) && Routable(d') && d'.environment == d.environment && d'.host == d.host
    ensures var t := Run(INITIAL, Rollover(d, d', ip, ip', port, port', agent)).tables;
            && R.Within(t, Ids.Deployment(2), d.environment) && t.deployments[Ids.Deployment(2)].status == R.RoutePending
            && R.RoutesOf(t, d.environment) == []
  {
    var s1 := Run(INITIAL, Deployed(INITIAL, d, ip, port));
    FirstDeployed(d, ip, port);
    SecondDeployed(s1, d', ip', port');
    RemovalStrands(Run(s1, Deployed(s1, d', ip', port')), d.environment, d.host, agent);
    RolloverInThree(d, d', ip, ip', port, port', agent);
  }

  /** A gateway's report that a version is applied. */
  function AppliedReport(environment: string, version: int): GatewayInput {
    GatewayInput("", version, R.GATEWAY_ROUTES, environment, Applied, 0, 0, 0, None)
  }

  /** Then the gateway reports the current version as applied: the new release is
      marked as active, on a route that is gone. */
  lemma ActiveWithoutRoute(d: DeployInput, d': DeployInput, ip: string, ip': string, port: int, port': int, agent: string,
                           now: Time, later: Time)
    requires Routable(d) && Routable(d') && d'.environment == d.environment && d'.host == d.host
    ensures var s := Run(INITIAL, Rollover(d, d', ip, ip', port, port', agent));
            var g := AppliedReport(d.environment, R.VersionOf(s.tables, d.environment));
            var t := Next(s, ReportDesiredState(g, now, later)).tables;
            && Ids.Deployment(2) in t.deployments && t.deployments[Ids.Deployment(2)].status == R.RouteActive
            && R.RoutesOf(t, d.environment) == []
  {
    hide Run, Rollover, Next, R.RoutesOf, R.VersionOf, AppliedReport, Ids.Deployment;
    var s := Run(INITIAL, Rollover(d, d', ip, ip', port, port', agent));
    RolloverStrands(d, d', ip, ip', port, port', agent);
    WaitingBecomesActive(s, Ids.Deployment(2), d.environment, now, later);
  }

  lemma WaitingBecomesActive(s: State, k: string, e: string, now: Time, later: Time)
    requires R.Within(s.tables, k, e) && s.tables.deployments[k].status == R.RoutePending
    ensures var t := Next(s, ReportDesiredState(AppliedReport(e, R.VersionOf(s.tables, e)), now, later)).tables;
            && k in t.deployments && t.deployments[k].status == R.RouteActive && R.RoutesOf(t, e) == R.RoutesOf(s.tables, e)
  {
    var op := ReportDesiredState(AppliedReport(e, R.VersionOf(s.tables, e)), now, later);
    assert EffectOf(s, op) == R.Judges(e, true, later);
    hide EffectOf, QueueAfter;
  }

  // ---- an update keeps the old health check path ----

  lemma FirstPath(info: R.DeploymentInfo, c: string, ip: string, port: int)
    requires info.requiresRoute && info.host != ""
    ensures var t := R.Deploy(R.Create(R.EMPTY, info, c), info.id, ip, port, 0);
            var rs := R.RoutesOf(t, info.environment);
            |rs| == 1 && rs[0].healthCheckPath == info.healthCheckPath
  {
    RI.DeployShape(R.Create(R.EMPTY, info, c), info.id, ip, port, 0);
  }

  lemma SecondPath(t: R.Tables, info: R.DeploymentInfo, c: string, ip: string, port: int)
    requires info.requiresRoute && info.host != "" && |R.RoutesOf(t, info.environment)| == 1
    requires R.RoutesOf(t, info.environment)[0].host == info.host
    ensures var t' := R.Deploy(R.Create(t, info, c), info.id, ip, port, 0);
            var rs, rs' := R.RoutesOf(t, info.environment), R.RoutesOf(t', info.environment);
            |rs'| == 1 && rs'[0].deploymentId == info.id && rs'[0].healthCheckPath == rs[0].healthCheckPath
  {
    RI.DeployShape(R.Create(t, info, c), info.id, ip, port, 0);
  }

  /** A second deployment on a host is served with the health check path of the
      first, whatever its own is. */
  lemma SecondKeepsFirstPath(d: DeployInput, d': DeployInput, ip: string, ip': string, port: int, port': int)
    requires Routable(d) && Routable(d') && d'.environment == d.environment && d'.host == d.host
    ensures var s := Run(INITIAL, Deployed(INITIAL, d, ip, port));
            var rs := R.RoutesOf(Run(s, Deployed(s, d', ip', port')).tables, d.environment);
            |rs| == 1 && rs[0].deploymentId == Ids.Deployment(2) && rs[0].healthCheckPath == d.healthCheckPath
  {
    var s := Run(INITIAL, Deployed(INITIAL, d, ip, port));
    FirstDeployed(d, ip, port);
    DeployedTables(INITIAL, d, ip, port);
    FirstPath(DeploymentInfoOf(d, NextDeploymentId(INITIAL), 0), NextCommandId(INITIAL), ip, port);
    DeployedTables(s, d', ip', port');
    SecondPath(s.tables, DeploymentInfoOf(d', NextDeploymentId(s), 0), NextCommandId(s), ip', port');
  }

  // ---- a removed deployment comes back ----

  /** Other commands do not touch a command. */
  lemma OrderedKeeps(s: State, kind: C.CommandKind, dep: string, agent: string, id: string)
    requires id in s.queue.commands && id != NextCommandId(s)
    ensures var q := Run(s, Ordered(s, kind, dep, agent)).queue;
            id in q.commands && q.commands[id] == s.queue.commands[id]
  {
    RunThree(s, Ordered(s, kind, dep, agent)[0], Ordered(s, kind, dep, agent)[1], Ordered(s, kind, dep, agent)[2]);
  }

  function Begun(d: DeployInput): State {
    Next(Next(INITIAL, InitDeploy(d, 0)), ClaimCommand(NextCommandId(INITIAL), d.targetAgentId, 0))
  }

  lemma TwoCommands()
    ensures Ids.Command(1) != Ids.Command(2)
  {
    if Ids.Command(1) == Ids.Command(2) {
      Ids.IdInjective(Ids.CommandKind, 1, Ids.CommandKind, 2);
    }
  }

  lemma CreatedShows(d: DeployInput)
    ensures var s, dep, cmd := Next(INITIAL, InitDeploy(d, 0)), NextDeploymentId(INITIAL), NextCommandId(INITIAL);
            && Awaits(s, cmd, C.DeployApplication, dep, d.targetAgentId) && NextCommandId(s) == Ids.Command(2)
            && dep in s.tables.deployments && s.tables.deployments[dep].status == R.CommandCreated
  {
  }

  lemma ClaimShows(s: State, cmd: string, kind: C.CommandKind, dep: string, agent: string)
    requires Awaits(s, cmd, kind, dep, agent)
    ensures var s' := Next(s, ClaimCommand(cmd, agent, 0));
            && s'.tables == s.tables && NextCommandId(s') == NextCommandId(s) && cmd in s'.queue.commands
            && s'.queue.commands[cmd].status == C.Claimed && s'.queue.commands[cmd].info.kind == kind
            && s'.queue.commands[cmd].info.deploymentId == dep
  {
  }

  lemma BegunShows(d: DeployInput)
    ensures var s, dep, cmd := Begun(d), NextDeploymentId(INITIAL), NextCommandId(INITIAL);
            && dep in s.tables.deployments && cmd in s.queue.commands && cmd != NextCommandId(s)
            && s.tables.deployments[dep].status == R.CommandCreated
            && s.queue.commands[cmd].status == C.Claimed && s.queue.commands[cmd].info.kind == C.DeployApplication
            && s.queue.commands[cmd].info.deploymentId == dep
  {
    hide Next, Ids.Command, Awaits;
    TwoCommands();
    CreatedShows(d);
    ClaimShows(Next(INITIAL, InitDeploy(d, 0)), NextCommandId(INITIAL), C.DeployApplication, NextDeploymentId(INITIAL),
               d.targetAgentId);
  }

  /** A deployment that was stopped before its deploy command reported is taken
      out of removed by the late report, whatever the inputs. */
  lemma LateSuccessRevives(d: DeployInput, ip: string, port: int, agent: string)
    ensures var dep := NextDeploymentId(INITIAL);
            var s := Run(Begun(d), Ordered(Begun(d), C.StopApplication, dep, agent));
            var s' := Next(s, ReportCommand(NextCommandId(INITIAL), Success(ip, port), 0, 0));
            && dep in s.tables.deployments && s.tables.deployments[dep].status == R.Removed
            && dep in s'.tables.deployments && s'.tables.deployments[dep].status != R.Removed
  {
    hide Next;
    var dep, cmd := NextDeploymentId(INITIAL), NextCommandId(INITIAL);
    var s0 := Begun(d);
    var s := Run(s0, Ordered(s0, C.StopApplication, dep, agent));
    BegunShows(d);
    OrderedTables(s0, C.StopApplication, dep, agent);
    OrderedKeeps(s0, C.StopApplication, dep, agent, cmd);
    LateSuccess(s, cmd, dep, ip, port);
  }

  lemma LateSuccess(s: State, cmd: string, dep: string, ip: string, port: int)
    requires dep in s.tables.deployments && cmd in s.queue.commands
    requires s.queue.commands[cmd].status == C.Claimed && s.queue.commands[cmd].info.kind == C.DeployApplication
    requires s.queue.commands[cmd].info.deploymentId == dep
    ensures var t := Next(s, ReportCommand(cmd, Success(ip, port), 0, 0)).tables;
            dep in t.deployments && t.deployments[dep].status != R.Removed
  {
    hide QueueAfter, R.Get, R.Create, R.Stop, R.Advance, R.Judge;
    if R.Routed(s.tables.deployments[dep]) {
      RI.DeployShape(s.tables, dep, ip, port, 0);
    }
  }

  /** A failure reported before the start leaves the deployment as created. */
  lemma EarlyFailureUnseen(d: DeployInput, error: Option<C.ReportError>)
    ensures var report := C.ReportInput("", "", C.ReportedFailed, C.Result("", "", 0), error);
            var s, dep, cmd := Next(Begun(d), ReportCommand(NextCommandId(INITIAL), report, 0, 0)), NextDeploymentId(INITIAL),
                               NextCommandId(INITIAL);
            && cmd in s.queue.commands && s.queue.commands[cmd].status == C.Failed
            && dep in s.tables.deployments && s.tables.deployments[dep].status == R.CommandCreated
  {
    hide Begun, R.Deploy, R.Remove, R.Create, R.Judge, R.Stop;
    BegunShows(d);
  }
}
