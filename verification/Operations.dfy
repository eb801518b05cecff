/** What each operation does and answers, written out field by field: the
    statuses, refusals, ids and time stamps that a caller sees. */
module Operations {
  import opened Base
  import opened Machine
  import opened MachineInvariant
  import Ids
  import F = Fleet
  import C = Commands
  import R = Routing
  import RI = RoutingInvariant

  // ---- agents ----

  /** The registration of agent a took the fleet from f to f': the profile is the
      new one; a known key keeps id, identity and registration time, and an
      unknown key gets the next number of its environment and role. */
  predicate Registered(f: F.Fleet, f': F.Fleet, a: F.Agent, i: Ids.Identity, p: F.Profile, now: Time) {
    var key := i.instanceId + ":" + i.mode + ":" + i.environment + ":" + i.role;
    && a.profile == p && a.status == "online" && a.lastSeenAt == now
    && f'.agents == f.agents[a.id := a] && f'.index == f.index[key := a.id]
    && if key in f.index then
         && a.id == f.index[key] && a.id in f.agents && f'.agentSeq == f.agentSeq
         && a.identity == f.agents[a.id].identity && a.registeredAt == f.agents[a.id].registeredAt
       else
         var counter := i.environment + "-" + i.role;
         var n := (if counter in f.agentSeq then f.agentSeq[counter] else 0) + 1;
         && a.identity == i && a.registeredAt == now && a.id !in f.agents && f'.agentSeq == f.agentSeq[counter := n]
         && Ids.Numbers(a.id, "agent-" + i.environment + "-" + i.role + "-", n)
  }

  lemma RegisterKnown(f: F.Fleet, i: Ids.Identity, p: F.Profile, now: Time)
    requires F.Indexed(f) && Ids.AgentKey(i) in f.index
    ensures Registered(f, F.Register(f, i, p, now).0, F.Register(f, i, p, now).1, i, p, now)
  {
    assert Ids.AgentKey(i) == i.instanceId + ":" + i.mode + ":" + i.environment + ":" + i.role;
    hide Ids.Numbers, Ids.AgentKey;
  }

  lemma RegisterUnknown(f: F.Fleet, i: Ids.Identity, p: F.Profile, now: Time)
    requires F.Numbered(f) && Ids.AgentKey(i) !in f.index
    ensures Registered(f, F.Register(f, i, p, now).0, F.Register(f, i, p, now).1, i, p, now)
  {
    hide F.Numbered, Ids.Numbers, Ids.Agent;
    var n := F.SeqOf(f, F.CounterKey(i)) + 1;
    Ids.AgentFormat(i.environment, i.role, n);
    F.NewIdIsFresh(f, i);
    assert Ids.AgentKey(i) == i.instanceId + ":" + i.mode + ":" + i.environment + ":" + i.role;
  }

  /** A registration does that and answers the agent; nothing else changes. */
  lemma RegisterAnswers(s: State, i: Ids.Identity, p: F.Profile, now: Time)
    requires Inv(s)
    ensures var s' := Next(s, RegisterAgent(i, p, now));
            && Answer(s, RegisterAgent(i, p, now)).AgentReply? && s' == s.(fleet := s'.fleet)
            && Registered(s.fleet, s'.fleet, Answer(s, RegisterAgent(i, p, now)).agent, i, p, now)
  {
    hide Inv, Registered, F.Register, F.Indexed, F.Numbered, Ids.AgentKey;
    hide R.Create, R.Deploy, R.Stop, R.Remove, R.Advance, R.Judge;
    FleetGood(s);
    if Ids.AgentKey(i) in s.fleet.index {
      RegisterKnown(s.fleet, i, p, now);
    } else {
      RegisterUnknown(s.fleet, i, p, now);
    }
  }

  lemma FleetGood(s: State)
    requires Inv(s)
    ensures F.Inv(s.fleet)
  {
  }

  // ---- creations ----

  /** The deployment carries what was asked for, and nothing has happened to it. */
  predicate Asked(dep: R.Deployment, d: DeployInput, now: Time) {
    && dep.info.application == d.application && dep.info.environment == d.environment && dep.info.image == d.image
    && dep.info.host == d.host && dep.info.targetAgentId == d.targetAgentId
    && dep.info.containerInternalPort == d.containerInternalPort
    && dep.info.healthCheckPath == d.healthCheckPath && dep.info.requiresRoute == d.requiresRoute
    && dep.info.containerName ==
       (if d.containerName != "" then d.containerName else d.application + "-" + d.environment + "-" + dep.info.id)
    && dep.info.createdAt == now
  }

  predicate JustFiled(dep: R.Deployment, commandId: string, now: Time) {
    && dep.status == R.CommandCreated && dep.commandId == commandId && dep.updatedAt == now
    && dep.runtimePrivateIP == "" && dep.hostPort == 0 && dep.routeId == ""
  }

  lemma AskedFor(d: DeployInput, depId: string, cmdId: string, now: Time)
    ensures var dep := R.NewDeployment(DeploymentInfoOf(d, depId, now), cmdId);
            dep.info.id == depId && Asked(dep, d, now) && JustFiled(dep, cmdId, now)
  {
  }

  predicate Mandatory(name: string) {
    name in {"devex.managed", "devex.application", "devex.environment", "devex.deployment_id", "devex.command_id"}
  }

  /** The labels of a deploy payload: the five mandatory ones as they must be,
      and every custom label with another name. */
  ghost predicate Labelled(labels: map<string, string>, d: DeployInput, depId: string, cmdId: string) {
    && (forall k :: k in labels <==> Mandatory(k) || k in d.customLabels)
    && labels["devex.managed"] == "true" && labels["devex.application"] == d.application
    && labels["devex.environment"] == d.environment && labels["devex.deployment_id"] == depId
    && labels["devex.command_id"] == cmdId
    && forall k | k in d.customLabels && !Mandatory(k) :: labels[k] == d.customLabels[k]
  }

  lemma LabelsMerged(d: DeployInput, depId: string, cmdId: string)
    ensures Labelled(Labels(d, depId, cmdId), d, depId, cmdId)
  {
  }

  /** The payload agrees with the deployment. */
  ghost predicate Describes(p: C.Payload, d: DeployInput, dep: R.Deployment, cmdId: string) {
    && p.DeployPayload?
    && p.application == dep.info.application && p.environment == dep.info.environment && p.image == dep.info.image
    && p.containerName == dep.info.containerName && p.containerInternalPort == dep.info.containerInternalPort
    && p.healthCheckPath == dep.info.healthCheckPath && p.requiresRoute == dep.info.requiresRoute
    && p.environmentVariables == d.environmentVariables && Labelled(p.labels, d, dep.info.id, cmdId)
  }

  /** Nobody has claimed the command yet. */
  predicate Unclaimed(c: C.Command) {
    && c.status == C.Pending && c.claimedBy == "" && c.claimedAt == None && c.startedAt == None && c.finishedAt == None
  }

  /** The deploy command of dep, for the same agent. */
  ghost predicate Orders(cmd: C.Command, d: DeployInput, dep: R.Deployment, now: Time) {
    && cmd.info.kind == C.DeployApplication && cmd.info.deploymentId == dep.info.id
    && cmd.info.targetAgentId == d.targetAgentId && cmd.info.timeoutSeconds == d.timeoutSeconds
    && cmd.info.createdAt == now && Describes(cmd.info.payload, d, dep, cmd.info.id)
  }

  lemma OrdersFor(d: DeployInput, depId: string, cmdId: string, now: Time)
    ensures var cmd := C.New(DeployCommandInfo(d, depId, cmdId, now));
            && cmd.info.id == cmdId && Unclaimed(cmd)
            && Orders(cmd, d, R.NewDeployment(DeploymentInfoOf(d, depId, now), cmdId), now)
  {
    LabelsMerged(d, depId, cmdId);
    hide Labels, Labelled;
  }

  lemma NewIds(s: State)
    requires Inv(s)
    ensures Ids.Numbers(NextDeploymentId(s), "dep-", s.tables.deploymentSeq + 1)
    ensures NextDeploymentId(s) !in s.tables.deployments
    ensures Ids.Numbers(NextCommandId(s), "cmd-", s.queue.commandSeq + 1) && NextCommandId(s) !in s.queue.commands
  {
    hide Inv, Ids.Numbers, Ids.Id, Ids.Issued;
    TablesKeyed(s);
    Ids.IdFormat(s.tables.deploymentSeq + 1);
    Ids.IdFormat(s.queue.commandSeq + 1);
    Ids.NextIsFresh(Ids.DeploymentKind, s.tables.deploymentSeq);
    Ids.NextIsFresh(Ids.CommandKind, s.queue.commandSeq);
  }

  lemma TablesKeyed(s: State)
    requires Inv(s)
    ensures RI.Keyed(s.tables) && C.Keyed(s.queue)
  {
  }

  /** A deployment and its command are filed under the next ids of each kind,
      with the fields that were asked for; the answer shows both. */
  lemma DeployAnswers(s: State, d: DeployInput, now: Time)
    requires Inv(s)
    ensures var s' := Next(s, InitDeploy(d, now));
            && Answer(s, InitDeploy(d, now)).DeployReply?
            && var dep, cmd := Answer(s, InitDeploy(d, now)).deployment, Answer(s, InitDeploy(d, now)).command;
               && Ids.Numbers(dep.info.id, "dep-", s.tables.deploymentSeq + 1) && dep.info.id !in s.tables.deployments
               && Ids.Numbers(cmd.info.id, "cmd-", s.queue.commandSeq + 1) && cmd.info.id !in s.queue.commands
               && Asked(dep, d, now) && JustFiled(dep, cmd.info.id, now) && Orders(cmd, d, dep, now) && Unclaimed(cmd)
               && s' == s.(queue := C.Queue(s.queue.commands[cmd.info.id := cmd], s.queue.reports, s.queue.commandSeq + 1),
                           tables := s.tables.(deployments := s.tables.deployments[dep.info.id := dep],
                                               deploymentSeq := s.tables.deploymentSeq + 1))
  {
    hide Inv, Asked, JustFiled, Orders, Unclaimed, Ids.Numbers, NextDeploymentId, NextCommandId, DeployCommandInfo;
    hide R.Deploy, R.Stop, R.Remove, R.Advance, R.Judge;
    NewIds(s);
    AskedFor(d, NextDeploymentId(s), NextCommandId(s), now);
    OrdersFor(d, NextDeploymentId(s), NextCommandId(s), now);
  }

  /** A command of its own, pending for its target. */
  lemma CreateAnswers(s: State, o: CommandInput, now: Time)
    requires Inv(s)
    ensures var s' := Next(s, CreateCommand(o, now));
            && Answer(s, CreateCommand(o, now)).CreatedReply?
            && var cmd := Answer(s, CreateCommand(o, now)).created;
               && Ids.Numbers(cmd.info.id, "cmd-", s.queue.commandSeq + 1) && cmd.info.id !in s.queue.commands
               && cmd.info.kind == o.kind && cmd.info.deploymentId == o.deploymentId
               && cmd.info.targetAgentId == o.targetAgentId && cmd.info.timeoutSeconds == o.timeoutSeconds
               && cmd.info.payload == C.RawPayload(o.payload) && cmd.info.createdAt == now && Unclaimed(cmd)
               && s' == s.(queue := C.Queue(s.queue.commands[cmd.info.id := cmd], s.queue.reports, s.queue.commandSeq + 1))
  {
    hide Inv, Ids.Numbers, NextCommandId, R.Create, R.Deploy, R.Stop, R.Remove, R.Advance, R.Judge;
    NewIds(s);
  }

  // ---- claims and starts ----

  lemma ClaimerIsTarget(s: State, id: string)
    requires Inv(s) && id in s.queue.commands
    ensures var c := s.queue.commands[id];
            c.claimedBy == if c.status == C.Pending then "" else c.info.targetAgentId
  {
    assert C.LifecycleOk(s.queue.commands[id]);
  }

  /** A claim is granted to the target agent of a pending command, and again to
      it while the command is claimed; every other claim is refused with its own
      reason, and changes nothing. */
  lemma ClaimAnswers(s: State, id: string, agent: string, now: Time)
    requires Inv(s)
    ensures var op := ClaimCommand(id, agent, now);
            if id !in s.queue.commands then Answer(s, op) == CommandReply(C.Refused(C.NotFound)) && Next(s, op) == s
            else
              var c := s.queue.commands[id];
              var target := c.info.targetAgentId;
              if c.status == C.Pending && agent == target then
                var claimed := C.Command(c.info, C.Claimed, agent, Some(now), c.startedAt, c.finishedAt);
                && Answer(s, op) == CommandReply(C.Accepted(claimed))
                && Next(s, op) == s.(queue := s.queue.(commands := s.queue.commands[id := claimed]))
              else if c.status == C.Claimed && agent == target then
                Answer(s, op) == CommandReply(C.Accepted(c)) && Next(s, op) == s
              else
                && Next(s, op) == s
                && Answer(s, op) == CommandReply(C.Refused(
                     if c.status == C.Pending then C.BelongsTo(target)
                     else if c.status == C.Claimed then C.HeldBy(target)
                     else C.HasStatus(c.status)))
  {
    hide Inv, R.Create, R.Deploy, R.Stop, R.Remove, R.Advance, R.Judge;
    if id in s.queue.commands {
      ClaimerIsTarget(s, id);
    }
  }

  /** What an accepted start leaves of a deployment. */
  predicate StartedFrom(d: R.Deployment, d': R.Deployment, now: Time) {
    d' == if d.status == R.CommandCreated then d.(status := R.Deploying, updatedAt := now) else d
  }

  /** A start is granted to the target agent of a claimed command, and again to
      it while the command runs; every other start is refused with its own
      reason, and changes nothing. */
  lemma StartAnswers(s: State, id: string, agent: string, now: Time)
    requires Inv(s)
    ensures var op := StartCommand(id, agent, now);
            if id !in s.queue.commands then Answer(s, op) == CommandReply(C.Refused(C.NotFound)) && Next(s, op) == s
            else
              var c := s.queue.commands[id];
              var target := c.info.targetAgentId;
              if c.status == C.Claimed && agent == target then
                var running := C.Command(c.info, C.Running, c.claimedBy, c.claimedAt, Some(now), c.finishedAt);
                && Answer(s, op) == CommandReply(C.Accepted(running))
                && Next(s, op).queue == s.queue.(commands := s.queue.commands[id := running])
                && Next(s, op) == s.(queue := Next(s, op).queue, tables := Next(s, op).tables)
              else if c.status == C.Running && agent == target then
                Answer(s, op) == CommandReply(C.Accepted(c)) && Next(s, op) == s
              else
                && Next(s, op) == s
                && Answer(s, op) == CommandReply(C.Refused(
                     if c.status == C.Claimed || c.status == C.Running then C.HeldBy(target) else C.HasStatus(c.status)))
  {
    hide Inv, R.Create, R.Deploy, R.Stop, R.Remove, R.Advance, R.Judge;
    if id in s.queue.commands {
      ClaimerIsTarget(s, id);
    }
  }

  /** The first start of a deploy command moves its deployment from
      command_created to deploying; nothing else in the tables changes. */
  lemma StartMoves(s: State, id: string, agent: string, now: Time)
    requires Inv(s) && id in s.queue.commands
    requires s.queue.commands[id].status == C.Claimed && s.queue.commands[id].info.targetAgentId == agent
    ensures var c, t, t' := s.queue.commands[id], s.tables, Next(s, StartCommand(id, agent, now)).tables;
            var k := c.info.deploymentId;
            if c.info.kind == C.DeployApplication && k in t.deployments then
              && k in t'.deployments && StartedFrom(t.deployments[k], t'.deployments[k], now)
              && t' == t.(deployments := t.deployments[k := t'.deployments[k]])
            else t' == t
  {
    hide Inv, QueueAfter, RI.Keyed, R.Create, R.Deploy, R.Stop, R.Remove, R.Judge;
    ClaimerIsTarget(s, id);
    TablesKeyed(s);
    var k := s.queue.commands[id].info.deploymentId;
    if k in s.tables.deployments {
      RI.DeploymentIdNotEmpty(s.tables, k);
      assert s.tables.deployments[k := s.tables.deployments[k]] == s.tables.deployments;
    }
  }

  // ---- reports ----

  /** A report that will be accepted. */
  predicate Acceptable(s: State, id: string, report: C.ReportInput) {
    && id in s.queue.commands && (s.queue.commands[id].status == C.Claimed || s.queue.commands[id].status == C.Running)
    && (report.status == C.ReportedSucceeded || report.status == C.ReportedFailed)
  }

  /** k is the deployment a report of the command is about: the one the report
      names, or the command's own when it names none. */
  predicate About(s: State, id: string, report: C.ReportInput, k: string) {
    && id in s.queue.commands
    && k == if report.deploymentId != "" then report.deploymentId else s.queue.commands[id].info.deploymentId
  }

  /** Every other report is refused with its own reason, and changes nothing. */
  lemma ReportRefusals(s: State, id: string, report: C.ReportInput, now: Time, later: Time)
    requires !Acceptable(s, id, report)
    ensures var op := ReportCommand(id, report, now, later);
            && Next(s, op) == s
            && if id !in s.queue.commands then Answer(s, op) == ReportReply(C.Refused(C.NotFound))
               else
                 var status := s.queue.commands[id].status;
                 if status == C.Pending || status == C.Succeeded || status == C.Failed
                 then Answer(s, op) == ReportReply(C.Refused(C.HasStatus(status)))
                 else report.status.ReportedOther?
                      && Answer(s, op) == ReportReply(C.Refused(C.InvalidStatus(report.status.text)))
  {
    hide R.Create, R.Deploy, R.Stop, R.Remove, R.Advance, R.Judge;
  }

  /** An accepted report is logged and answered about deployment k, and finishes
      its command with its outcome. */
  lemma ReportAnswers(s: State, id: string, report: C.ReportInput, now: Time, later: Time, k: string)
    requires Acceptable(s, id, report) && About(s, id, report, k)
    ensures var op, c := ReportCommand(id, report, now, later), s.queue.commands[id];
            var entry := C.CommandReport(id, k, report.agentId, report.status, report.result, report.error, now);
            var outcome := if report.status == C.ReportedSucceeded then C.Succeeded else C.Failed;
            var c' := C.Command(c.info, outcome, c.claimedBy, c.claimedAt, c.startedAt, Some(now));
            && Answer(s, op) == ReportReply(C.Accepted(entry))
            && Next(s, op).queue == C.Queue(s.queue.commands[id := c'], s.queue.reports + [entry], s.queue.commandSeq)
            && Next(s, op) == s.(queue := Next(s, op).queue, tables := Next(s, op).tables)
  {
    hide R.Apply;
  }

  /** What an accepted report does to the tables, in the words of its effect. */
  lemma ReportEffects(s: State, id: string, report: C.ReportInput, now: Time, later: Time, k: string)
    requires Acceptable(s, id, report) && About(s, id, report, k)
    ensures var kind, t' := s.queue.commands[id].info.kind, Next(s, ReportCommand(id, report, now, later)).tables;
            t' == if report.status == C.ReportedFailed then R.Advance(s.tables, k, R.Deploying, R.DeployFailed, now)
                  else if kind == C.DeployApplication then
                    R.Deploy(s.tables, k, report.result.runtimePrivateIP, report.result.hostPort, later)
                  else if kind == C.StopApplication then R.Stop(s.tables, k, later)
                  else if kind == C.RemoveDeployment then R.Remove(s.tables, k, later)
                  else s.tables
  {
    hide R.Create, R.Deploy, R.Stop, R.Remove, R.Advance, R.Judge;
  }

  // ---- what accepted reports do to deployments and routes ----

  /** A failure marks a deployment that is deploying, and no other. */
  lemma FailureMarks(s: State, id: string, report: C.ReportInput, now: Time, later: Time, k: string)
    requires Acceptable(s, id, report) && About(s, id, report, k) && report.status == C.ReportedFailed
    ensures var t, t' := s.tables, Next(s, ReportCommand(id, report, now, later)).tables;
            t' == if k in t.deployments && t.deployments[k].status == R.Deploying
                  then t.(deployments := t.deployments[k := t.deployments[k].(status := R.DeployFailed, updatedAt := now)])
                  else t
  {
    hide Next;
    ReportEffects(s, id, report, now, later, k);
  }

  /** A stop removes the deployment and leaves its route. */
  lemma StopMarks(s: State, id: string, report: C.ReportInput, now: Time, later: Time, k: string)
    requires Acceptable(s, id, report) && About(s, id, report, k) && report.status == C.ReportedSucceeded
    requires s.queue.commands[id].info.kind == C.StopApplication
    ensures var t, t' := s.tables, Next(s, ReportCommand(id, report, now, later)).tables;
            t' == if k in t.deployments
                  then t.(deployments := t.deployments[k := t.deployments[k].(status := R.Removed, updatedAt := later)])
                  else t
  {
    hide Next;
    ReportEffects(s, id, report, now, later, k);
  }

  /** A success of a cleanup, or of a command of another type, is only logged; so
      is any report about a deployment that does not exist. */
  lemma OthersMarkNothing(s: State, id: string, report: C.ReportInput, now: Time, later: Time, k: string)
    requires Acceptable(s, id, report) && About(s, id, report, k)
    requires k !in s.tables.deployments
             || (report.status == C.ReportedSucceeded
                 && (s.queue.commands[id].info.kind == C.CleanupDraining || s.queue.commands[id].info.kind.OtherKind?))
    ensures Next(s, ReportCommand(id, report, now, later)).tables == s.tables
  {
    hide Next;
    ReportEffects(s, id, report, now, later, k);
  }

  /** The routes and the version of an environment. */
  function RoutesIn(t: R.Tables, e: string): seq<R.Route> { if e in t.states then t.states[e].routes else [] }

  function VersionIn(t: R.Tables, e: string): nat { if e in t.states then t.states[e].version else 0 }

  /** t' shows the routes rs in environment e at the next version, and otherwise
      what t shows; deployment k is now d. */
  predicate Reissued(t: R.Tables, t': R.Tables, e: string, rs: seq<R.Route>, k: string, d: R.Deployment) {
    && t'.states == t.states[e := R.DesiredState(VersionIn(t, e) + 1, "gateway_routes", e, rs)]
    && t'.versionSeq == t.versionSeq[e := VersionIn(t, e) + 1]
    && t'.deployments == t.deployments[k := d] && t'.deploymentSeq == t.deploymentSeq
  }

  lemma StateIn(t: R.Tables, e: string)
    requires RI.Inv(t)
    ensures R.Get(t, e) == R.DesiredState(VersionIn(t, e), "gateway_routes", e, RoutesIn(t, e))
  {
  }

  lemma OneRouteAtMost(t: R.Tables, e: string, i: nat, j: nat)
    requires RI.Inv(t) && i < |RoutesIn(t, e)| && j < |RoutesIn(t, e)| && RoutesIn(t, e)[i].id == RoutesIn(t, e)[j].id
    ensures i == j
  {
    RI.RouteIdsUnique(t, e, i, e, j);
  }

  /** t' is t with deployment k removed: exactly the route with its id, if any, is
      out of its environment, the others stay in order, and the version has
      risen; if k held no id, nothing but its marks has changed. */
  ghost predicate Withdrawn(t: R.Tables, t': R.Tables, k: string, later: Time)
    requires k in t.deployments
  {
    var d := t.deployments[k];
    var e, rs := d.info.environment, RoutesIn(t, d.info.environment);
    var d' := d.(status := R.Removed, updatedAt := later, routeId := "");
    && t'.routeSeq == t.routeSeq
    && if d.routeId == "" then t' == t.(deployments := t.deployments[k := d'])
       else
         && (forall i | 0 <= i < |rs| && rs[i].id == d.routeId :: Reissued(t, t', e, rs[..i] + rs[i + 1..], k, d'))
         && ((forall r | r in rs :: r.id != d.routeId) ==> Reissued(t, t', e, rs, k, d'))
  }

  lemma WithoutHeld(t: R.Tables, e: string, routeId: string, i: nat)
    requires RI.Inv(t) && i < |RoutesIn(t, e)| && RoutesIn(t, e)[i].id == routeId
    ensures R.Without(RoutesIn(t, e), routeId) == RoutesIn(t, e)[..i] + RoutesIn(t, e)[i + 1..]
  {
    hide RI.Inv, R.Without;
    forall j | 0 <= j < |RoutesIn(t, e)| && RoutesIn(t, e)[j].id == routeId
      ensures i == j
    {
      OneRouteAtMost(t, e, i, j);
    }
    RI.WithoutOne(RoutesIn(t, e), i, routeId);
  }

  lemma HolderHasState(t: R.Tables, k: string)
    requires RI.Inv(t) && k in t.deployments && t.deployments[k].routeId != ""
    ensures t.deployments[k].info.environment in t.states
  {
  }

  lemma RemoveShows(t: R.Tables, k: string, later: Time)
    requires RI.Inv(t) && k in t.deployments && t.deployments[k].routeId != ""
    ensures Withdrawn(t, R.Remove(t, k, later), k, later)
  {
    hide RI.Inv, R.Without, R.Remove;
    var d := t.deployments[k];
    var e, rs := d.info.environment, RoutesIn(t, d.info.environment);
    HolderHasState(t, k);
    RI.RemoveShape(t, k, later);
    StateIn(t, e);
    forall i | 0 <= i < |rs| && rs[i].id == d.routeId {
      WithoutHeld(t, e, d.routeId, i);
    }
    if forall r | r in rs :: r.id != d.routeId {
      RI.WithoutNone(rs, d.routeId);
    }
  }

  lemma RemoveShowsNone(t: R.Tables, k: string, later: Time)
    requires k in t.deployments && t.deployments[k].routeId == ""
    ensures Withdrawn(t, R.Remove(t, k, later), k, later)
  {
    hide Reissued;
  }

  /** A remove success does that to the deployment it is about. */
  lemma RemovalMarks(s: State, id: string, report: C.ReportInput, now: Time, later: Time, k: string)
    requires Inv(s) && Acceptable(s, id, report) && About(s, id, report, k) && report.status == C.ReportedSucceeded
    requires s.queue.commands[id].info.kind == C.RemoveDeployment && k in s.tables.deployments
    ensures Withdrawn(s.tables, Next(s, ReportCommand(id, report, now, later)).tables, k, later)
  {
    hide Next, Inv, Withdrawn, R.Remove;
    ReportEffects(s, id, report, now, later, k);
    RoutingGood(s);
    if s.tables.deployments[k].routeId != "" {
      RemoveShows(s.tables, k, later);
    } else {
      RemoveShowsNone(s.tables, k, later);
    }
  }

  lemma RoutingGood(s: State)
    requires Inv(s)
    ensures RI.Inv(s.tables)
  {
  }

  /** A deploy success marks a deployment without a route as healthy, at the
      reported address. */
  lemma DeployMarksHealthy(s: State, id: string, report: C.ReportInput, now: Time, later: Time, k: string)
    requires Acceptable(s, id, report) && About(s, id, report, k) && report.status == C.ReportedSucceeded
    requires s.queue.commands[id].info.kind == C.DeployApplication && k in s.tables.deployments
    requires !s.tables.deployments[k].info.requiresRoute || s.tables.deployments[k].info.host == ""
    ensures var t, t', d := s.tables, Next(s, ReportCommand(id, report, now, later)).tables, s.tables.deployments[k];
            t' == t.(deployments := t.deployments[
              k := d.(runtimePrivateIP := report.result.runtimePrivateIP, hostPort := report.result.hostPort,
                      status := R.Healthy, updatedAt := later)])
  {
    hide Next;
    ReportEffects(s, id, report, now, later, k);
  }

  /** d as a routed deploy success leaves it. */
  function Waiting(d: R.Deployment, result: C.Result, later: Time, routeId: string): R.Deployment {
    d.(runtimePrivateIP := result.runtimePrivateIP, hostPort := result.hostPort, status := R.RoutePending,
       updatedAt := later, routeId := routeId)
  }

  /** A deploy success of a deployment with a route redirects the route of its
      host to the reported address, or adds one under the next route id, and
      leaves the deployment waiting for a verdict. */
  lemma DeployMarksPending(s: State, id: string, report: C.ReportInput, now: Time, later: Time, k: string)
    returns (upstream: string, made: string)
    requires Inv(s) && Acceptable(s, id, report) && About(s, id, report, k) && report.status == C.ReportedSucceeded
    requires s.queue.commands[id].info.kind == C.DeployApplication && k in s.tables.deployments
    requires s.tables.deployments[k].info.requiresRoute && s.tables.deployments[k].info.host != ""
    ensures Ids.Dials(upstream, report.result.runtimePrivateIP, report.result.hostPort)
    ensures Ids.Numbers(made, "route-", s.tables.routeSeq + 1)
    ensures var t, t', d := s.tables, Next(s, ReportCommand(id, report, now, later)).tables, s.tables.deployments[k];
            var e, rs := d.info.environment, RoutesIn(s.tables, d.info.environment);
            && (forall i | 0 <= i < |rs| && rs[i].host == d.info.host ::
                  && t'.routeSeq == t.routeSeq
                  && Reissued(t, t', e, rs[i := rs[i].(upstream := upstream, deploymentId := k)], k,
                                 Waiting(d, report.result, later, rs[i].id)))
            && ((forall r | r in rs :: r.host != d.info.host) ==>
                  && t'.routeSeq == t.routeSeq + 1
                  && Reissued(t, t', e, rs + [R.Route(made, e, d.info.host, "/", upstream, k, d.info.healthCheckPath)], k,
                                 Waiting(d, report.result, later, made)))
  {
    hide Next, Inv, RI.Inv, R.Deploy, R.Get, Ids.Dials, Ids.Numbers, Ids.BuildUpstream, Ids.Route;
    ReportEffects(s, id, report, now, later, k);
    RoutingGood(s);
    var t, d := s.tables, s.tables.deployments[k];
    var e, rs := d.info.environment, RoutesIn(t, d.info.environment);
    upstream := Ids.BuildUpstream(report.result.runtimePrivateIP, report.result.hostPort);
    Ids.UpstreamDials(report.result.runtimePrivateIP, report.result.hostPort);
    made := Ids.Route(t.routeSeq + 1);
    Ids.IdFormat(t.routeSeq + 1);
    RI.DeployShape(t, k, report.result.runtimePrivateIP, report.result.hostPort, later);
    StateIn(t, e);
    forall i | 0 <= i < |rs| && rs[i].host == d.info.host
      ensures R.HostIndex(rs, d.info.host) == i
    {
      OneHostAtMost(t, e, i, R.HostIndex(rs, d.info.host));
    }
    if R.HostIndex(rs, d.info.host) < |rs| {
      assert rs[R.HostIndex(rs, d.info.host)] in rs;
    }
  }

  lemma OneHostAtMost(t: R.Tables, e: string, i: nat, j: nat)
    requires RI.Inv(t) && i < |RoutesIn(t, e)| && j < |RoutesIn(t, e)| && RoutesIn(t, e)[i].host == RoutesIn(t, e)[j].host
    ensures i == j
  {
    assert RI.UniqueHosts(RoutesIn(t, e));
  }

  lemma ReportTargets(s: State, id: string, report: C.ReportInput, now: Time, later: Time, k: string)
    requires Acceptable(s, id, report) && About(s, id, report, k)
    ensures var e := EffectOf(s, ReportCommand(id, report, now, later));
            !e.Creates? && !e.Judges? && (TargetOf(e) == None || TargetOf(e) == Some(k))
  {
  }

  /** Whatever a report says, deployments other than k stay as they are. */
  lemma ReportTouchesOne(s: State, id: string, report: C.ReportInput, now: Time, later: Time, k: string, l: string)
    requires Inv(s) && Acceptable(s, id, report) && About(s, id, report, k) && l in s.tables.deployments && l != k
    ensures var t' := Next(s, ReportCommand(id, report, now, later)).tables;
            && t'.deployments.Keys == s.tables.deployments.Keys && l in t'.deployments
            && t'.deployments[l] == s.tables.deployments[l]
  {
    hide Inv, EffectOf, QueueAfter, R.Apply, R.Enabled, TargetOf;
    var op := ReportCommand(id, report, now, later);
    RoutingGood(s);
    StepEnabled(s, op);
    ReportTargets(s, id, report, now, later, k);
    KeysStep(s.tables, EffectOf(s, op));
    DeploymentStep(s.tables, EffectOf(s, op), l);
  }

  // ---- gateway reports ----

  /** What a gateway report makes of a deployment: a verdict if it names the
      current version and the deployment waits in that environment. */
  function Verdict(t: R.Tables, g: GatewayInput, later: Time, d: R.Deployment): R.Deployment {
    if g.version != VersionIn(t, g.environment) || d.info.environment != g.environment || d.status != R.RoutePending then d
    else if g.status == Applied then d.(status := R.RouteActive, updatedAt := later)
    else if g.status == NotApplied then d.(status := R.RouteFailed, updatedAt := later)
    else d
  }

  /** A gateway report is logged with the version it met and its flags; one about
      the current version gives every waiting deployment of its environment the
      verdict it reports, and no report changes anything else. */
  lemma GatewayAnswers(s: State, g: GatewayInput, now: Time, later: Time)
    ensures var op, v := ReportDesiredState(g, now, later), VersionIn(s.tables, g.environment);
            var entry := GatewayReport(g, v, g.version < v, g.version > v, now);
            && Answer(s, op) == GatewayReply(entry, g.version > v)
            && Next(s, op) == s.(gatewayLog := s.gatewayLog + [entry],
                                 tables := s.tables.(deployments := Next(s, op).tables.deployments))
            && Next(s, op).tables.deployments.Keys == s.tables.deployments.Keys
            && forall k | k in s.tables.deployments ::
                 Next(s, op).tables.deployments[k] == Verdict(s.tables, g, later, s.tables.deployments[k])
  {
    hide R.Create, R.Deploy, R.Stop, R.Remove, R.Advance;
  }

  // ---- reads, restarts and resets ----

  /** A read shows the environment's desired state, or version 0 without routes. */
  lemma ReadAnswers(s: State, e: string)
    requires Inv(s)
    ensures Next(s, GetDesiredState(e)) == s
    ensures Answer(s, GetDesiredState(e)) ==
            DesiredStateReply(R.DesiredState(VersionIn(s.tables, e), "gateway_routes", e, RoutesIn(s.tables, e)))
  {
    hide Inv, R.Create, R.Deploy, R.Stop, R.Remove, R.Advance, R.Judge, R.Get;
    RoutingGood(s);
    StateIn(s.tables, e);
  }

  /** A reset leaves nothing and starts all numbers again; a restart loses nothing. */
  lemma ResetAnswers(s: State)
    ensures Next(s, Reset) ==
            State(F.Fleet(map[], map[], map[]), C.Queue(map[], [], 0), R.Tables(map[], map[], 0, 0, map[]), [])
    ensures Next(s, Restart) == s
  {
  }
}
