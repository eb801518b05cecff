/** The whole store as one state machine: every exported operation runs under
    the store's lock and so is one atomic step, in whatever order agents,
    gateways and test drivers call. */
module Machine {
  import opened Base
  import Ids
  import F = Fleet
  import C = Commands
  import R = Routing

  // ---- gateway reports ----

  /** The status string of a gateway report: "applied", "failed" or other. */
  datatype GatewayStatus = Applied | NotApplied | OtherStatus(text: string)

  datatype GatewayInput = GatewayInput(
    agentId: string, version: int, kind: string, environment: string, status: GatewayStatus,
    routesTotal: int, validatedRoutes: int, failedRoutes: int, error: Option<C.ReportError>)

  datatype GatewayReport = GatewayReport(
    input: GatewayInput, currentVersion: nat, stale: bool, invalid: bool, receivedAt: Time)

  // ---- operations ----

  datatype DeployInput = DeployInput(
    application: string, environment: string, image: string, host: string, targetAgentId: string,
    containerName: string, containerInternalPort: int, healthCheckPath: string, requiresRoute: bool,
    environmentVariables: map<string, string>, customLabels: map<string, string>, timeoutSeconds: int)

  datatype CommandInput = CommandInput(
    kind: C.CommandKind, deploymentId: string, targetAgentId: string, timeoutSeconds: int, payload: string)

  datatype Op =
    | RegisterAgent(identity: Ids.Identity, profile: F.Profile, now: Time)
    | InitDeploy(deploy: DeployInput, now: Time)
    | CreateCommand(order: CommandInput, now: Time)
    | ClaimCommand(id: string, agentId: string, now: Time)
    | StartCommand(id: string, agentId: string, now: Time)
    | ReportCommand(id: string, report: C.ReportInput, now: Time, later: Time)
    | ReportDesiredState(gateway: GatewayInput, now: Time, later: Time)
    | GetDesiredState(environment: string)
    | Restart
    | Reset

  datatype Reply =
    | AgentReply(agent: F.Agent)
    | DeployReply(deployment: R.Deployment, command: C.Command)
    | CreatedReply(created: C.Command)
    | CommandReply(outcome: C.Reply<C.Command>)
    | ReportReply(verdict: C.Reply<C.CommandReport>)
    | GatewayReply(logged: GatewayReport, future: bool)
    | DesiredStateReply(state: R.DesiredState)
    | Done

  // ---- state ----

  datatype State = State(fleet: F.Fleet, queue: C.Queue, tables: R.Tables, gatewayLog: seq<GatewayReport>)

  const INITIAL := State(F.EMPTY, C.EMPTY, R.EMPTY, [])

  // ---- what the operations build ----

  function ContainerName(d: DeployInput, depId: string): string {
    if d.containerName == "" then d.application + "-" + d.environment + "-" + depId else d.containerName
  }

  function DeploymentInfoOf(d: DeployInput, depId: string, now: Time): R.DeploymentInfo {
    R.DeploymentInfo(depId, d.application, d.environment, d.image, d.host, d.targetAgentId, ContainerName(d, depId),
                     d.containerInternalPort, d.healthCheckPath, d.requiresRoute, now)
  }

  /** The labels every container gets. */
  function MandatoryLabels(d: DeployInput, depId: string, cmdId: string): map<string, string> {
    map["devex.managed" := "true", "devex.application" := d.application, "devex.environment" := d.environment,
        "devex.deployment_id" := depId, "devex.command_id" := cmdId]
  }

  /** Custom labels never override the mandatory ones. */
  function Labels(d: DeployInput, depId: string, cmdId: string): map<string, string> {
    d.customLabels + MandatoryLabels(d, depId, cmdId)
  }

  function DeployOrder(d: DeployInput, depId: string, cmdId: string, labels: map<string, string>, now: Time): C.CommandInfo {
    C.CommandInfo(cmdId, C.DeployApplication, depId, d.targetAgentId, d.timeoutSeconds,
                  C.DeployPayload(d.application, d.environment, d.image, ContainerName(d, depId), d.containerInternalPort,
                                  d.healthCheckPath, d.requiresRoute, d.environmentVariables, labels), now)
  }

  function DeployCommandInfo(d: DeployInput, depId: string, cmdId: string, now: Time): C.CommandInfo {
    DeployOrder(d, depId, cmdId, Labels(d, depId, cmdId), now)
  }

  function OrderInfo(o: CommandInput, cmdId: string, now: Time): C.CommandInfo {
    C.CommandInfo(cmdId, o.kind, o.deploymentId, o.targetAgentId, o.timeoutSeconds, C.RawPayload(o.payload), now)
  }

  function NextDeploymentId(s: State): string { Ids.Deployment(s.tables.deploymentSeq + 1) }

  function NextCommandId(s: State): string { Ids.Command(s.queue.commandSeq + 1) }

  function LogEntry(t: R.Tables, g: GatewayInput, now: Time): GatewayReport {
    var v := R.VersionOf(t, g.environment);
    GatewayReport(g, v, g.version < v, g.version > v, now)
  }

  // ---- effects on the tables ----

  /** What an accepted successful report of a command does. */
  function SuccessEffect(kind: C.CommandKind, dep: string, result: C.Result, at: Time): R.Effect {
    match kind
    case DeployApplication => R.Deploys(dep, result.runtimePrivateIP, result.hostPort, at)
    case StopApplication => R.Stops(dep, at)
    case RemoveDeployment => R.Removes(dep, at)
    case _ => R.Nothing
  }

  predicate Decides(t: R.Tables, g: GatewayInput) {
    g.version == R.VersionOf(t, g.environment) && !g.status.OtherStatus?
  }

  /** Starting a deploy command moves its own deployment on. */
  function StartOf(info: C.CommandInfo, now: Time): R.Effect {
    if info.kind == C.DeployApplication && info.deploymentId != "" then R.Starts(info.deploymentId, now) else R.Nothing
  }

  function StartEffect(q: C.Queue, id: string, agentId: string, now: Time): R.Effect {
    if C.CanStart(q, id, agentId) then StartOf(q.commands[id].info, now) else R.Nothing
  }

  /** What an accepted report does to the deployment it is about. */
  function OutcomeEffect(kind: C.CommandKind, dep: string, report: C.ReportInput, now: Time, later: Time): R.Effect {
    if report.status == C.ReportedSucceeded then SuccessEffect(kind, dep, report.result, later) else R.Fails(dep, now)
  }

  /** An accepted report acts on the deployment it names, or else on the
      command's own. */
  function ReportEffect(q: C.Queue, id: string, report: C.ReportInput, now: Time, later: Time): R.Effect {
    if !C.CanFinish(q, id, report.status) then R.Nothing
    else OutcomeEffect(q.commands[id].info.kind, C.Target(q.commands[id], report), report, now, later)
  }

  /** What a report of the current version does: a status that is neither applied
      nor failed decides nothing. */
  function VerdictEffect(environment: string, status: GatewayStatus, at: Time): R.Effect {
    if status.OtherStatus? then R.Nothing else R.Judges(environment, status == Applied, at)
  }

  /** What such a report does to one deployment. */
  function Ruled(d: R.Deployment, environment: string, status: GatewayStatus, at: Time): R.Deployment {
    if status.OtherStatus? then d else R.Judged(d, environment, status == Applied, at)
  }

  function GatewayEffect(t: R.Tables, g: GatewayInput, at: Time): R.Effect {
    if Decides(t, g) then VerdictEffect(g.environment, g.status, at) else R.Nothing
  }

  function EffectOf(s: State, op: Op): R.Effect {
    match op
    case InitDeploy(d, now) => R.Creates(DeploymentInfoOf(d, NextDeploymentId(s), now), NextCommandId(s))
    case StartCommand(id, agentId, now) => StartEffect(s.queue, id, agentId, now)
    case ReportCommand(id, report, now, later) => ReportEffect(s.queue, id, report, now, later)
    case ReportDesiredState(g, now, later) => GatewayEffect(s.tables, g, later)
    case _ => R.Nothing
  }

  // ---- steps ----

  function QueueAfter(s: State, op: Op): C.Queue {
    match op
    case InitDeploy(d, now) => C.Add(s.queue, DeployCommandInfo(d, NextDeploymentId(s), NextCommandId(s), now))
    case CreateCommand(order, now) => C.Add(s.queue, OrderInfo(order, NextCommandId(s), now))
    case ClaimCommand(id, agentId, now) => C.Claim(s.queue, id, agentId, now).0
    case StartCommand(id, agentId, now) => C.Start(s.queue, id, agentId, now).0
    case ReportCommand(id, report, now, later) => C.Finish(s.queue, id, report, now).0
    case _ => s.queue
  }

  function Next(s: State, op: Op): State {
    if op.Reset? then INITIAL
    else
      State(
        if op.RegisterAgent? then F.Register(s.fleet, op.identity, op.profile, op.now).0 else s.fleet,
        QueueAfter(s, op),
        R.Apply(s.tables, EffectOf(s, op)),
        if op.ReportDesiredState? then s.gatewayLog + [LogEntry(s.tables, op.gateway, op.now)] else s.gatewayLog)
  }

  function Answer(s: State, op: Op): Reply {
    match op
    case RegisterAgent(i, p, now) => AgentReply(F.Register(s.fleet, i, p, now).1)
    case InitDeploy(d, now) =>
      var depId, cmdId := NextDeploymentId(s), NextCommandId(s);
      DeployReply(R.NewDeployment(DeploymentInfoOf(d, depId, now), cmdId),
                  C.New(DeployCommandInfo(d, depId, cmdId, now)))
    case CreateCommand(order, now) => CreatedReply(C.New(OrderInfo(order, NextCommandId(s), now)))
    case ClaimCommand(id, agentId, now) => CommandReply(C.Claim(s.queue, id, agentId, now).1)
    case StartCommand(id, agentId, now) => CommandReply(C.Start(s.queue, id, agentId, now).1)
    case ReportCommand(id, report, now, later) => ReportReply(C.Finish(s.queue, id, report, now).1)
    case ReportDesiredState(g, now, later) =>
      var entry := LogEntry(s.tables, g, now);
      GatewayReply(entry, entry.invalid)
    case GetDesiredState(environment) => DesiredStateReply(R.Get(s.tables, environment))
    case Restart => Done
    case Reset => Done
  }

  // ---- steps, one kind at a time ----

  lemma RegisterIsNext(s: State, s': State, op: Op, a: F.Agent)
    requires op.RegisterAgent? && (s'.fleet, a) == F.Register(s.fleet, op.identity, op.profile, op.now)
    requires s' == s.(fleet := s'.fleet)
    ensures s' == Next(s, op) && AgentReply(a) == Answer(s, op)
  {
  }

  lemma DeployIsNext(s: State, s': State, op: Op, dep: R.Deployment, cmd: C.Command)
    requires op.InitDeploy?
    requires var depId, cmdId := NextDeploymentId(s), NextCommandId(s);
             var info, order := DeploymentInfoOf(op.deploy, depId, op.now), DeployCommandInfo(op.deploy, depId, cmdId, op.now);
             && dep == R.NewDeployment(info, cmdId) && cmd == C.New(order)
             && s' == s.(queue := C.Add(s.queue, order), tables := R.Create(s.tables, info, cmdId))
    ensures s' == Next(s, op) && DeployReply(dep, cmd) == Answer(s, op)
  {
  }

  lemma CreateIsNext(s: State, s': State, op: Op, cmd: C.Command)
    requires op.CreateCommand?
    requires var info := OrderInfo(op.order, NextCommandId(s), op.now);
             cmd == C.New(info) && s' == s.(queue := C.Add(s.queue, info))
    ensures s' == Next(s, op) && CreatedReply(cmd) == Answer(s, op)
  {
  }

  lemma ClaimIsNext(s: State, s': State, op: Op, r: C.Reply<C.Command>)
    requires op.ClaimCommand? && (s'.queue, r) == C.Claim(s.queue, op.id, op.agentId, op.now)
    requires s' == s.(queue := s'.queue)
    ensures s' == Next(s, op) && CommandReply(r) == Answer(s, op)
  {
  }

  lemma StartIsNext(s: State, s': State, op: Op, r: C.Reply<C.Command>)
    requires op.StartCommand? && (s'.queue, r) == C.Start(s.queue, op.id, op.agentId, op.now)
    requires s'.tables == R.Apply(s.tables, StartEffect(s.queue, op.id, op.agentId, op.now))
    requires s' == s.(queue := s'.queue, tables := s'.tables)
    ensures s' == Next(s, op) && CommandReply(r) == Answer(s, op)
  {
  }

  lemma ReportIsNext(s: State, s': State, op: Op, r: C.Reply<C.CommandReport>)
    requires op.ReportCommand? && (s'.queue, r) == C.Finish(s.queue, op.id, op.report, op.now)
    requires s'.tables == R.Apply(s.tables, ReportEffect(s.queue, op.id, op.report, op.now, op.later))
    requires s' == s.(queue := s'.queue, tables := s'.tables)
    ensures s' == Next(s, op) && ReportReply(r) == Answer(s, op)
  {
  }

  lemma GatewayIsNext(s: State, s': State, op: Op, entry: GatewayReport)
    requires op.ReportDesiredState? && entry == LogEntry(s.tables, op.gateway, op.now)
    requires s'.tables == R.Apply(s.tables, GatewayEffect(s.tables, op.gateway, op.later))
    requires s' == s.(tables := s'.tables, gatewayLog := s.gatewayLog + [entry])
    ensures s' == Next(s, op) && GatewayReply(entry, entry.invalid) == Answer(s, op)
  {
  }

  lemma ReadIsNext(s: State, op: Op)
    requires op.GetDesiredState? || op.Restart?
    ensures s == Next(s, op)
  {
  }

  // ---- runs ----

  function Run(s: State, ops: seq<Op>): State {
    if ops == [] then s else Next(Run(s, ops[..|ops| - 1]), ops[|ops| - 1])
  }

  function Answers(s: State, ops: seq<Op>): seq<Reply> {
    if ops == [] then []
    else
      var front := ops[..|ops| - 1];
      Answers(s, front) + [Answer(Run(s, front), ops[|ops| - 1])]
  }

  /** One more operation at the end. */
  lemma RunSnoc(s: State, ops: seq<Op>, op: Op)
    ensures Run(s, ops + [op]) == Next(Run(s, ops), op)
    ensures Answers(s, ops + [op]) == Answers(s, ops) + [Answer(Run(s, ops), op)]
  {
    assert (ops + [op])[..|ops|] == ops;
  }

  /** One more operation of a given sequence. */
  lemma RunNext(s: State, ops: seq<Op>, i: nat)
    requires i < |ops|
    ensures Run(s, ops[..i + 1]) == Next(Run(s, ops[..i]), ops[i])
    ensures Answers(s, ops[..i + 1]) == Answers(s, ops[..i]) + [Answer(Run(s, ops[..i]), ops[i])]
  {
    RunSnoc(s, ops[..i], ops[i]);
    assert ops[..i + 1] == ops[..i] + [ops[i]];
  }

  predicate ResetFree(ops: seq<Op>) { forall i | 0 <= i < |ops| :: !ops[i].Reset? }
}
