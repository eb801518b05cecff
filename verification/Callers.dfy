/** What agents, gateways and test drivers can rely on over whole runs without a
    reset: who works on a command, where verdicts come from, and that what was
    filed and logged stays as it was answered. */
module Callers {
  import opened Base
  import opened Machine
  import opened MachineInvariant
  import opened History
  import L = Lifecycle
  import O = Operations
  import Ids
  import F = Fleet
  import C = Commands
  import R = Routing
  import RI = RoutingInvariant

  // ---- who works on a command ----

  predicate Granted(s: State, op: Op) {
    Answer(s, op).CommandReply? && Answer(s, op).outcome.Accepted?
  }

  /** The step is a claim or a start of the command that was granted to the agent. */
  predicate TakesOn(s: State, op: Op, id: string, agent: string) {
    && (op.ClaimCommand? || op.StartCommand?) && op.id == id && op.agentId == agent && Granted(s, op)
  }

  lemma GrantedToTarget(s: State, op: Op, id: string, agent: string)
    requires Inv(s) && TakesOn(s, op, id, agent)
    ensures id in s.queue.commands && s.queue.commands[id].info.targetAgentId == agent
  {
    hide Inv, Next, Answer;
    if op.ClaimCommand? {
      O.ClaimAnswers(s, op.id, op.agentId, op.now);
    } else {
      O.StartAnswers(s, op.id, op.agentId, op.now);
    }
  }

  /** All claims and starts of a command that are ever granted come from one
      agent, its target. */
  lemma OneAgentPerCommand(ss: seq<State>, ops: seq<Op>, i: nat, j: nat, id: string, a: string, b: string)
    requires Trace(ss, ops) && i <= j < |ops| && TakesOn(ss[i], ops[i], id, a) && TakesOn(ss[j], ops[j], id, b)
    ensures id in ss[j].queue.commands && a == b == ss[j].queue.commands[id].info.targetAgentId
  {
    hide LeadsThrough, Inv, TakesOn;
    TraceGood(ss, ops, i);
    TraceGood(ss, ops, j);
    TakenByTarget(ss, i, ops[i], id, a);
    TakenByTarget(ss, j, ops[j], id, b);
    L.CommandsOnlyAdvance(ss, ops, i, j, id);
  }

  lemma TakenByTarget(ss: seq<State>, i: nat, op: Op, id: string, a: string)
    requires i < |ss| && Good(ss, i) && TakesOn(ss[i], op, id, a)
    ensures id in ss[i].queue.commands && ss[i].queue.commands[id].info.targetAgentId == a
  {
    GrantedToTarget(ss[i], op, id, a);
  }

  /** The step claims the pending command for its target, at the given time. */
  predicate ClaimsFirst(s: State, op: Op, k: string, at: Time) {
    && op.ClaimCommand? && op.id == k && op.now == at && k in s.queue.commands && s.queue.commands[k].status == C.Pending
    && op.agentId == s.queue.commands[k].info.targetAgentId
  }

  /** The step starts the claimed command for its target, at the given time. */
  predicate StartsFirst(s: State, op: Op, k: string, at: Time) {
    && op.StartCommand? && op.id == k && op.now == at && k in s.queue.commands && s.queue.commands[k].status == C.Claimed
    && op.agentId == s.queue.commands[k].info.targetAgentId
  }

  lemma StampStep(s: State, op: Op, k: string)
    requires C.Inv(s.queue) && k in QueueAfter(s, op).commands
    ensures var c' := QueueAfter(s, op).commands[k];
            && (c'.claimedAt.Some? ==>
                  || (k in s.queue.commands && s.queue.commands[k].claimedAt == c'.claimedAt)
                  || ClaimsFirst(s, op, k, c'.claimedAt.value))
            && (c'.startedAt.Some? ==>
                  || (k in s.queue.commands && s.queue.commands[k].startedAt == c'.startedAt)
                  || StartsFirst(s, op, k, c'.startedAt.value))
  {
    hide C.LogSound, C.LogDistinct, C.LogComplete, C.Keyed;
    assert k in s.queue.commands ==> C.LifecycleOk(s.queue.commands[k]);
  }

  /** A claim time is the reading of the one step that claimed the command. */
  lemma {:induction false} ClaimedBefore(ss: seq<State>, ops: seq<Op>, i: nat, k: string) returns (m: nat)
    requires Trace(ss, ops) && ss[0] == INITIAL && i <= |ops|
    requires k in ss[i].queue.commands && ss[i].queue.commands[k].claimedAt.Some?
    ensures m < i && ClaimsFirst(ss[m], ops[m], k, ss[i].queue.commands[k].claimedAt.value)
  {
    hide LeadsThrough, C.Inv, QueueAfter, ClaimsFirst, StartsFirst;
    L.QueueAt(ss, ops, i - 1);
    StampStep(ss[i - 1], ops[i - 1], k);
    if ClaimsFirst(ss[i - 1], ops[i - 1], k, ss[i].queue.commands[k].claimedAt.value) {
      m := i - 1;
    } else {
      m := ClaimedBefore(ss, ops, i - 1, k);
    }
  }

  lemma {:induction false} StartedBefore(ss: seq<State>, ops: seq<Op>, i: nat, k: string) returns (m: nat)
    requires Trace(ss, ops) && ss[0] == INITIAL && i <= |ops|
    requires k in ss[i].queue.commands && ss[i].queue.commands[k].startedAt.Some?
    ensures m < i && StartsFirst(ss[m], ops[m], k, ss[i].queue.commands[k].startedAt.value)
  {
    hide LeadsThrough, C.Inv, QueueAfter, ClaimsFirst, StartsFirst;
    L.QueueAt(ss, ops, i - 1);
    StampStep(ss[i - 1], ops[i - 1], k);
    if StartsFirst(ss[i - 1], ops[i - 1], k, ss[i].queue.commands[k].startedAt.value) {
      m := i - 1;
    } else {
      m := StartedBefore(ss, ops, i - 1, k);
    }
  }

  /** No command is finished that its target agent has not claimed before. */
  lemma FinishedWasClaimed(ss: seq<State>, ops: seq<Op>, i: nat) returns (m: nat)
    requires Trace(ss, ops) && ss[0] == INITIAL && i < |ops| && Finishes(ss[i], ops[i])
    ensures ss[i].queue.commands[ops[i].id].claimedAt.Some?
    ensures m < i && ClaimsFirst(ss[m], ops[m], ops[i].id, ss[i].queue.commands[ops[i].id].claimedAt.value)
  {
    hide LeadsThrough, ClaimsFirst;
    L.SingleClaimer(ss, ops, i, ops[i].id);
    m := ClaimedBefore(ss, ops, i, ops[i].id);
  }

  // ---- where verdicts come from ----

  /** The step is a gateway report of the given status about the current version
      of the environment. */
  predicate Reports(s: State, op: Op, environment: string, status: GatewayStatus) {
    && op.ReportDesiredState? && op.gateway.environment == environment && op.gateway.status == status
    && op.gateway.version == O.VersionIn(s.tables, environment)
  }

  /** A waiting deployment turns active exactly by a report that the current
      version is applied, and failed exactly by a report that it is not. */
  lemma VerdictIff(ss: seq<State>, ops: seq<Op>, i: nat, k: string)
    requires Trace(ss, ops) && i < |ops| && Is(ss[i], k, R.RoutePending)
    ensures Is(ss[i + 1], k, R.RouteActive) <==> Reports(ss[i], ops[i], EnvOf(ss[i], k), Applied)
    ensures Is(ss[i + 1], k, R.RouteFailed) <==> Reports(ss[i], ops[i], EnvOf(ss[i], k), NotApplied)
  {
    hide LeadsThrough, R.Apply, EffectOf, QueueAfter, Decides, R.StatusFor;
    DeploymentAt(ss, ops, i, k);
    TraceStep(ss, ops, i);
    var s, op := ss[i], ops[i];
    if op.ReportDesiredState? {
      O.GatewayAnswers(s, op.gateway, op.now, op.later);
    } else if IsVerdict(ss[i + 1].tables.deployments[k].status) {
      VerdictAt(ss, ops, i, k);
    }
  }

  /** No other deployment turns active or failed. */
  lemma VerdictsNeedWaiting(ss: seq<State>, ops: seq<Op>, i: nat, k: string, verdict: R.DeploymentStatus)
    requires Trace(ss, ops) && i < |ops| && (verdict == R.RouteActive || verdict == R.RouteFailed)
    requires Is(ss[i + 1], k, verdict) && !Is(ss[i], k, verdict)
    ensures Is(ss[i], k, R.RoutePending)
    ensures Reports(ss[i], ops[i], EnvOf(ss[i], k), if verdict == R.RouteActive then Applied else NotApplied)
  {
    hide LeadsThrough, Reports;
    VerdictAt(ss, ops, i, k);
    VerdictIff(ss, ops, i, k);
  }

  // ---- what was filed stays ----

  /** A deployment and its command stay as the answer showed them, apart from
      what happens to them. */
  lemma DeploymentStaysAsAsked(ss: seq<State>, ops: seq<Op>, i: nat, j: nat)
    requires Trace(ss, ops) && i < j <= |ops| && ops[i].InitDeploy?
    ensures Answer(ss[i], ops[i]).DeployReply?
    ensures var dep, cmd := Answer(ss[i], ops[i]).deployment, Answer(ss[i], ops[i]).command;
            && O.Asked(dep, ops[i].deploy, ops[i].now) && O.Orders(cmd, ops[i].deploy, dep, ops[i].now)
            && dep.info.id in ss[j].tables.deployments && ss[j].tables.deployments[dep.info.id].info == dep.info
            && ss[j].tables.deployments[dep.info.id].commandId == cmd.info.id
            && cmd.info.id in ss[j].queue.commands && ss[j].queue.commands[cmd.info.id].info == cmd.info
  {
    hide LeadsThrough, Inv, Next, Answer, O.Asked, O.Orders, Ids.Numbers;
    TraceGood(ss, ops, i);
    TraceStep(ss, ops, i);
    O.DeployAnswers(ss[i], ops[i].deploy, ops[i].now);
    var dep, cmd := Answer(ss[i], ops[i]).deployment, Answer(ss[i], ops[i]).command;
    DeploymentsStay(ss, ops, i + 1, j, dep.info.id);
    L.CommandsOnlyAdvance(ss, ops, i + 1, j, cmd.info.id);
  }

  predicate Prefix<T(==)>(a: seq<T>, b: seq<T>) { |a| <= |b| && b[..|a|] == a }

  lemma LogsStep(s: State, op: Op)
    requires !op.Reset?
    ensures Prefix(s.queue.reports, Next(s, op).queue.reports) && Prefix(s.gatewayLog, Next(s, op).gatewayLog)
  {
    hide R.Apply, EffectOf;
  }

  /** Both logs only ever grow at the end. */
  lemma {:induction false} LogsOnlyGrow(ss: seq<State>, ops: seq<Op>, i: nat, j: nat)
    requires Trace(ss, ops) && i <= j <= |ops|
    ensures Prefix(ss[i].queue.reports, ss[j].queue.reports) && Prefix(ss[i].gatewayLog, ss[j].gatewayLog)
    decreases j - i
  {
    hide LeadsThrough, Next;
    if i < j {
      LogsOnlyGrow(ss, ops, i, j - 1);
      TraceStep(ss, ops, j - 1);
      LogsStep(ss[j - 1], ops[j - 1]);
    }
  }

  /** An accepted report stays in the log as it was answered. */
  lemma ReportStaysLogged(ss: seq<State>, ops: seq<Op>, i: nat, j: nat, k: string)
    requires Trace(ss, ops) && i < j <= |ops| && ops[i].ReportCommand?
    requires O.Acceptable(ss[i], ops[i].id, ops[i].report) && O.About(ss[i], ops[i].id, ops[i].report, k)
    ensures var r, n := ops[i].report, |ss[i].queue.reports|;
            && n < |ss[j].queue.reports|
            && ss[j].queue.reports[n] ==
               C.CommandReport(ops[i].id, k, r.agentId, r.status, r.result, r.error, ops[i].now)
  {
    hide LeadsThrough, Next, Answer, O.Acceptable, O.About;
    TraceStep(ss, ops, i);
    O.ReportAnswers(ss[i], ops[i].id, ops[i].report, ops[i].now, ops[i].later, k);
    LogsOnlyGrow(ss, ops, i + 1, j);
    var n := |ss[i].queue.reports|;
    assert ss[j].queue.reports[n] == ss[j].queue.reports[..n + 1][n];
  }

  // ---- agents ----

  /** The agent filed under the key, with the fields that never change. */
  ghost predicate Filed(s: State, key: string, id: string, identity: Ids.Identity, registeredAt: Time) {
    && key in s.fleet.index && s.fleet.index[key] == id && id in s.fleet.agents
    && s.fleet.agents[id].identity == identity && s.fleet.agents[id].registeredAt == registeredAt
  }

  lemma FiledStep(s: State, op: Op, key: string, id: string, identity: Ids.Identity, registeredAt: Time)
    requires Inv(s) && !op.Reset? && Filed(s, key, id, identity, registeredAt)
    ensures Filed(Next(s, op), key, id, identity, registeredAt)
  {
    hide Inv, Answer, QueueAfter, R.Apply, EffectOf;
    if op.RegisterAgent? {
      O.RegisterAnswers(s, op.identity, op.profile, op.now);
    }
  }

  lemma {:induction false} FiledStays(ss: seq<State>, ops: seq<Op>, i: nat, j: nat, key: string, id: string,
                                      identity: Ids.Identity, registeredAt: Time)
    requires Trace(ss, ops) && i <= j <= |ops| && Filed(ss[i], key, id, identity, registeredAt)
    ensures Filed(ss[j], key, id, identity, registeredAt)
    decreases j - i
  {
    hide LeadsThrough, Inv, Next, Filed;
    if i < j {
      FiledStays(ss, ops, i, j - 1, key, id, identity, registeredAt);
      TraceGood(ss, ops, j - 1);
      TraceStep(ss, ops, j - 1);
      FiledStep(ss[j - 1], ops[j - 1], key, id, identity, registeredAt);
    }
  }

  function KeyOf(i: Ids.Identity): string { i.instanceId + ":" + i.mode + ":" + i.environment + ":" + i.role }

  /** Two registrations get the same agent id exactly when their keys are equal,
      whatever happens between them; the agent then keeps its first identity and
      registration time. */
  lemma AgentIdsFollowKeys(ss: seq<State>, ops: seq<Op>, i: nat, j: nat)
    requires Trace(ss, ops) && i < j < |ops| && ops[i].RegisterAgent? && ops[j].RegisterAgent?
    ensures Answer(ss[i], ops[i]).AgentReply? && Answer(ss[j], ops[j]).AgentReply?
    ensures var a, b := Answer(ss[i], ops[i]).agent, Answer(ss[j], ops[j]).agent;
            && (a.id == b.id <==> KeyOf(ops[i].identity) == KeyOf(ops[j].identity))
            && (a.id == b.id ==> b.identity == a.identity && b.registeredAt == a.registeredAt)
  {
    hide LeadsThrough, Inv, Next, Answer, Ids.Numbers;
    TraceGood(ss, ops, i);
    TraceGood(ss, ops, j);
    TraceStep(ss, ops, i);
    O.RegisterAnswers(ss[i], ops[i].identity, ops[i].profile, ops[i].now);
    O.RegisterAnswers(ss[j], ops[j].identity, ops[j].profile, ops[j].now);
    var a := Answer(ss[i], ops[i]).agent;
    TraceGood(ss, ops, j + 1);
    TraceStep(ss, ops, j);
    FiledStays(ss, ops, i + 1, j, KeyOf(ops[i].identity), a.id, a.identity, a.registeredAt);
    FiledStays(ss, ops, i + 1, j + 1, KeyOf(ops[i].identity), a.id, a.identity, a.registeredAt);
    if a.id == Answer(ss[j], ops[j]).agent.id {
      OneKeyPerId(ss[j + 1], KeyOf(ops[i].identity), KeyOf(ops[j].identity));
    }
  }

  lemma OneKeyPerId(s: State, key: string, key': string)
    requires Inv(s) && key in s.fleet.index && key' in s.fleet.index && s.fleet.index[key] == s.fleet.index[key']
    ensures key == key'
  {
    assert F.Indexed(s.fleet);
  }

  // ---- what gateways dial ----

  /** In every reachable state the upstream of each published route reads as the
      address and the port that its deployment's success reported. */
  lemma UpstreamsReadBack(ops: seq<Op>, e: string, r: R.Route)
    requires r in R.RoutesOf(Run(INITIAL, ops).tables, e)
    ensures var t := Run(INITIAL, ops).tables;
            && r.deploymentId in t.deployments
            && Ids.Dials(r.upstream, t.deployments[r.deploymentId].runtimePrivateIP, t.deployments[r.deploymentId].hostPort)
  {
    hide Run, Inv, Ids.Dials, Ids.BuildUpstream;
    AlwaysOwned(ops, e, r);
    var d := Run(INITIAL, ops).tables.deployments[r.deploymentId];
    Ids.UpstreamDials(d.runtimePrivateIP, d.hostPort);
  }
}
