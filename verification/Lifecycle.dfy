/** Commands and deployments over time: no step goes back, no command is
    finished twice, no id is issued twice, and work is bounded. */
module Lifecycle {
  import opened Base
  import opened Machine
  import opened MachineInvariant
  import opened History
  import Ids
  import C = Commands
  import R = Routing
  import RI = RoutingInvariant

  // ---- commands ----

  function Rank(s: C.CommandStatus): nat {
    match s
    case Pending => 0
    case Claimed => 1
    case Running => 2
    case _ => 3
  }

  /** c' is a later stage of c: same order, never an earlier status, the claimer
      stays, and a finished command does not change at all. */
  predicate Later(c: C.Command, c': C.Command) {
    && c'.info == c.info
    && Rank(c.status) <= Rank(c'.status)
    && (c.status != C.Pending ==> c'.claimedBy == c.claimedBy && c'.claimedAt == c.claimedAt)
    && (C.Terminal(c.status) ==> c' == c)
  }

  /** What one step of a trace does to the queue. */
  lemma QueueAt(ss: seq<State>, ops: seq<Op>, i: nat)
    requires Trace(ss, ops) && i < |ops|
    ensures C.Inv(ss[i].queue) && ss[i + 1].queue == QueueAfter(ss[i], ops[i])
  {
    TraceGood(ss, ops, i);
    TraceStep(ss, ops, i);
  }

  lemma LaterAt(ss: seq<State>, ops: seq<Op>, i: nat, k: string)
    requires Trace(ss, ops) && i < |ops| && k in ss[i].queue.commands
    ensures k in ss[i + 1].queue.commands && Later(ss[i].queue.commands[k], ss[i + 1].queue.commands[k])
  {
    QueueAt(ss, ops, i);
    LaterStep(ss[i], ops[i], k);
  }

  /** One command is written, with a later stage of it, or is new. */
  ghost predicate Onward(q: C.Queue, q': C.Queue, k: string) {
    k in q.commands ==> k in q'.commands && Later(q.commands[k], q'.commands[k])
  }

  lemma AddOnward(q: C.Queue, info: C.CommandInfo, k: string)
    requires C.Keyed(q) && info.id == Ids.Command(q.commandSeq + 1)
    ensures Onward(q, C.Add(q, info), k)
  {
    Ids.NextIsFresh(Ids.CommandKind, q.commandSeq);
  }

  lemma ClaimOnward(q: C.Queue, id: string, agentId: string, now: Time, k: string)
    ensures Onward(q, C.Claim(q, id, agentId, now).0, k)
  {
  }

  lemma StartOnward(q: C.Queue, id: string, agentId: string, now: Time, k: string)
    ensures Onward(q, C.Start(q, id, agentId, now).0, k)
  {
  }

  lemma FinishOnward(q: C.Queue, id: string, input: C.ReportInput, now: Time, k: string)
    ensures Onward(q, C.Finish(q, id, input, now).0, k)
  {
  }

  lemma LaterStep(s: State, op: Op, k: string)
    requires C.Inv(s.queue)
    ensures Onward(s.queue, QueueAfter(s, op), k)
  {
    match op
    case InitDeploy(d, now) => AddOnward(s.queue, DeployCommandInfo(d, NextDeploymentId(s), NextCommandId(s), now), k);
    case CreateCommand(order, now) => AddOnward(s.queue, OrderInfo(order, NextCommandId(s), now), k);
    case ClaimCommand(id, agentId, now) => ClaimOnward(s.queue, id, agentId, now, k);
    case StartCommand(id, agentId, now) => StartOnward(s.queue, id, agentId, now, k);
    case ReportCommand(id, report, now, later) => FinishOnward(s.queue, id, report, now, k);
    case _ =>
  }

  /** No command goes back, changes hands or is reopened, over any run. */
  lemma {:induction false} CommandsOnlyAdvance(ss: seq<State>, ops: seq<Op>, i: nat, j: nat, k: string)
    requires Trace(ss, ops) && i <= j <= |ops| && k in ss[i].queue.commands
    ensures k in ss[j].queue.commands && Later(ss[i].queue.commands[k], ss[j].queue.commands[k])
    decreases j - i
  {
    hide LeadsThrough;
    if i < j {
      CommandsOnlyAdvance(ss, ops, i, j - 1, k);
      LaterAt(ss, ops, j - 1, k);
    }
  }

  /** Whoever claimed a command is its target agent. */
  lemma SingleClaimer(ss: seq<State>, ops: seq<Op>, i: nat, k: string)
    requires Trace(ss, ops) && i <= |ops| && k in ss[i].queue.commands
    ensures var c := ss[i].queue.commands[k];
            && (c.status == C.Pending <==> c.claimedAt == None)
            && c.claimedBy == if c.status == C.Pending then "" else c.info.targetAgentId
  {
    TraceGood(ss, ops, i);
    assert C.LifecycleOk(ss[i].queue.commands[k]);
  }

  /** A report is accepted at most once per command, whatever agents retry. */
  lemma FinishedOnce(ss: seq<State>, ops: seq<Op>, i: nat, j: nat)
    requires Trace(ss, ops) && i < j < |ops|
    requires Finishes(ss[i], ops[i]) && Finishes(ss[j], ops[j])
    ensures ops[i].id != ops[j].id
  {
    hide LeadsThrough, Inv, EffectOf, R.Apply;
    TraceStep(ss, ops, i);
    FinishWrites(ss[i], ops[i]);
    CommandsOnlyAdvance(ss, ops, i + 1, j, ops[i].id);
  }

  /** The log and the finished commands correspond one to one, with equal
      outcomes: entry i is the only one about its command. */
  lemma LogIsBijective(ops: seq<Op>)
    ensures var q := Run(INITIAL, ops).queue;
            && (forall k | k in q.commands :: C.Terminal(q.commands[k].status) <==> C.Logged(q, k))
            && (forall i | 0 <= i < |q.reports| ::
                  q.reports[i].commandId in q.commands
                  && q.commands[q.reports[i].commandId].status == C.Final(q.reports[i].status))
            && (forall i, j | 0 <= i < |q.reports| && 0 <= j < |q.reports| ::
                  q.reports[i].commandId == q.reports[j].commandId <==> i == j)
  {
    InitialInv();
    Reachable(INITIAL, ops);
  }

  // ---- progress ----

  function Remaining(c: C.Command): nat { 3 - Rank(c.status) }

  /** The step moves some existing command on. */
  predicate Effective(s: State, op: Op) {
    !CreatesCommand(op) && QueueAfter(s, op).commands != s.queue.commands
  }

  lemma RemainingStep(s: State, op: Op)
    requires C.Inv(s.queue)
    ensures var w, w' := Sum(Weights(s.queue, Remaining)), Sum(Weights(QueueAfter(s, op), Remaining));
            if CreatesCommand(op) then w' == w + 3
            else if Effective(s, op) then w' < w
            else w' == w
  {
    var q, q' := s.queue, QueueAfter(s, op);
    if CreatesCommand(op) {
      Ids.NextIsFresh(Ids.CommandKind, q.commandSeq);
      WeighOne(q, q', NextCommandId(s), q'.commands[NextCommandId(s)], Remaining);
    } else if q'.commands != q.commands {
      WriteStep(s, op);
      var id := Written(s, op);
      WeighOne(q, q', id, q'.commands[id], Remaining);
      MovesUp(s, op, id);
    }
  }

  lemma MovesUp(s: State, op: Op, id: string)
    requires C.Inv(s.queue) && !CreatesCommand(op) && QueueAfter(s, op).commands != s.queue.commands && id == Written(s, op)
    ensures id in s.queue.commands && id in QueueAfter(s, op).commands
    ensures Rank(s.queue.commands[id].status) < Rank(QueueAfter(s, op).commands[id].status)
  {
    hide LeadsThrough, C.Inv;
  }

  ghost function EffectiveCount(ss: seq<State>, ops: seq<Op>, i: nat): nat
    requires i <= |ops| < |ss|
  {
    if i == 0 then 0 else EffectiveCount(ss, ops, i - 1) + if Effective(ss[i - 1], ops[i - 1]) then 1 else 0
  }

  lemma RemainingAt(ss: seq<State>, ops: seq<Op>, i: nat)
    requires Trace(ss, ops) && i < |ops|
    ensures Sum(Weights(ss[i + 1].queue, Remaining)) + (if Effective(ss[i], ops[i]) then 1 else 0)
            <= Sum(Weights(ss[i].queue, Remaining)) + 3 * (ss[i + 1].queue.commandSeq - ss[i].queue.commandSeq)
    ensures ss[i].queue.commandSeq <= ss[i + 1].queue.commandSeq
  {
    QueueAt(ss, ops, i);
    RemainingStep(ss[i], ops[i]);
    QueueLengths(ss[i], ops[i]);
  }

  /** Claims, starts and reports that change anything are bounded by three per
      command ever created; what remains to be done falls with each of them. */
  lemma {:induction false} WorkIsBounded(ss: seq<State>, ops: seq<Op>, i: nat)
    requires Trace(ss, ops) && ss[0] == INITIAL && i <= |ops|
    ensures EffectiveCount(ss, ops, i) + Sum(Weights(ss[i].queue, Remaining)) <= 3 * ss[i].queue.commandSeq
  {
    hide LeadsThrough, QueueAfter;
    if i == 0 {
      assert Weights(INITIAL.queue, Remaining).Keys == {};
    } else {
      WorkIsBounded(ss, ops, i - 1);
      RemainingAt(ss, ops, i - 1);
    }
  }

  // ---- ids ----

  function Counter(s: State, k: Ids.Kind): nat {
    match k
    case CommandKind => s.queue.commandSeq
    case DeploymentKind => s.tables.deploymentSeq
    case RouteKind => s.tables.routeSeq
  }

  lemma CounterAt(ss: seq<State>, ops: seq<Op>, i: nat, k: Ids.Kind)
    requires Trace(ss, ops) && i < |ops|
    ensures Counter(ss[i], k) <= Counter(ss[i + 1], k)
  {
    var e := EffectAt(ss, ops, i);
    EffectCounts(ss[i].tables, e);
    TraceStep(ss, ops, i);
    QueueLengths(ss[i], ops[i]);
  }

  lemma {:induction false} IssuedGrows(k: Ids.Kind, m: nat, n: nat)
    requires m <= n
    ensures Ids.Issued(k, m) <= Ids.Issued(k, n)
    decreases n - m
  {
    if m < n {
      IssuedGrows(k, m, n - 1);
    }
  }

  lemma {:induction false} CountersGrow(ss: seq<State>, ops: seq<Op>, i: nat, j: nat, k: Ids.Kind)
    requires Trace(ss, ops) && i <= j <= |ops|
    ensures Counter(ss[i], k) <= Counter(ss[j], k)
    decreases j - i
  {
    hide LeadsThrough, Counter;
    if i < j {
      CountersGrow(ss, ops, i, j - 1, k);
      CounterAt(ss, ops, j - 1, k);
    }
  }

  /** Ids of commands, deployments and routes are never issued twice between
      resets: what has been issued stays issued, and the next id is not in it. */
  lemma IdsNeverReturn(ss: seq<State>, ops: seq<Op>, i: nat, j: nat, k: Ids.Kind)
    requires Trace(ss, ops) && i <= j <= |ops|
    ensures Ids.Issued(k, Counter(ss[i], k)) <= Ids.Issued(k, Counter(ss[j], k))
    ensures Ids.Id(k, Counter(ss[j], k) + 1) !in Ids.Issued(k, Counter(ss[i], k))
  {
    var m, n := Counter(ss[i], k), Counter(ss[j], k);
    CountersGrow(ss, ops, i, j, k);
    IssuedGrows(k, m, n);
    Ids.NextIsFresh(k, n);
  }

  // ---- deployments ----

  function Phase(s: R.DeploymentStatus): nat {
    match s
    case Requested => 0
    case CommandCreated => 0
    case Deploying => 1
    case _ => 2
  }

  lemma PhaseAt(ss: seq<State>, ops: seq<Op>, i: nat, k: string)
    requires Trace(ss, ops) && i < |ops| && k in ss[i].tables.deployments
    ensures k in ss[i + 1].tables.deployments
    ensures Phase(ss[i].tables.deployments[k].status) <= Phase(ss[i + 1].tables.deployments[k].status)
  {
    hide LeadsThrough, RI.Inv, QueueAfter;
    var e := EffectAt(ss, ops, i);
    DeploymentStep(ss[i].tables, e, k);
    if TargetOf(e) == Some(k) {
      TargetStatus(ss[i].tables, e, k);
    }
  }

  /** No deployment re-enters command_created or deploying. */
  lemma {:induction false} PhasesOnlyAdvance(ss: seq<State>, ops: seq<Op>, i: nat, j: nat, k: string)
    requires Trace(ss, ops) && i <= j <= |ops| && k in ss[i].tables.deployments
    ensures k in ss[j].tables.deployments
    ensures Phase(ss[i].tables.deployments[k].status) <= Phase(ss[j].tables.deployments[k].status)
    decreases j - i
  {
    hide LeadsThrough;
    if i < j {
      PhasesOnlyAdvance(ss, ops, i, j - 1, k);
      PhaseAt(ss, ops, j - 1, k);
    }
  }

  // ---- the documented diagrams ----

  /** The documented moves of a command, and staying where it is. */
  predicate CommandDiagram(from: C.CommandStatus, to: C.CommandStatus) {
    || from == to
    || (from == C.Pending && to == C.Claimed)
    || (from == C.Claimed && to == C.Running)
    || (from == C.Running && C.Terminal(to))
  }

  /** A step moves a command off the diagram exactly when it is an accepted
      report on a command that was never started. */
  lemma CommandsFollowDiagramIffStarted(s: State, op: Op, k: string)
    requires C.Inv(s.queue) && k in s.queue.commands
    ensures k in QueueAfter(s, op).commands
    ensures CommandDiagram(s.queue.commands[k].status, QueueAfter(s, op).commands[k].status) <==>
            !(Finishes(s, op) && op.id == k && s.queue.commands[k].status == C.Claimed)
  {
    hide Ids.Issued;
    Ids.NextIsFresh(Ids.CommandKind, s.queue.commandSeq);
  }

  /** The documented moves of a deployment, with healthy passed through on the
      way to route_pending, and staying where it is. */
  predicate DeploymentDiagram(from: R.DeploymentStatus, to: R.DeploymentStatus) {
    || from == to
    || (from == R.CommandCreated && to == R.Deploying)
    || (from == R.Deploying && (to == R.Healthy || to == R.DeployFailed || to == R.RoutePending))
    || (from == R.Healthy && to == R.RoutePending)
    || (from == R.RoutePending && IsVerdict(to))
    || ((from == R.Healthy || IsVerdict(from) || from == R.DeployFailed) && to == R.Removed)
  }

  /** Where a deploy success leads. */
  function Landing(d: R.Deployment): R.DeploymentStatus { if R.Routed(d) then R.RoutePending else R.Healthy }

  /** A deploy success on a deployment that is not deploying, or a stop or remove
      success on one that still waits for its deploy or its verdict. */
  predicate OffDiagram(t: R.Tables, e: R.Effect, k: string)
    requires k in t.deployments
  {
    var from := t.deployments[k].status;
    && TargetOf(e) == Some(k)
    && match e
       case Deploys(_, _, _, _) => from != R.Deploying && from != Landing(t.deployments[k])
       case Stops(_, _) => from == R.CommandCreated || from == R.Deploying || from == R.RoutePending
       case Removes(_, _) => from == R.CommandCreated || from == R.Deploying || from == R.RoutePending
       case _ => false
  }

  /** A step moves a deployment off the documented diagram exactly then. */
  lemma DeploymentsFollowDiagramIff(t: R.Tables, e: R.Effect, k: string)
    requires RI.Inv(t) && R.Enabled(t, e) && k in t.deployments
    ensures k in R.Apply(t, e).deployments
    ensures DeploymentDiagram(t.deployments[k].status, R.Apply(t, e).deployments[k].status) <==> !OffDiagram(t, e, k)
  {
    hide RI.Keyed, RI.Versioned, RI.HostsUnique, RI.UniqueHosts, RI.HeldIssued;
    assert RI.StatusOk(t.deployments[k]);
    DeploymentStep(t, e, k);
    RI.CreateKeepsNew(t, e);
    if TargetOf(e) == Some(k) {
      TargetStatus(t, e, k);
    }
  }

  // ---- removal ----

  lemma RemovedEffect(t: R.Tables, e: R.Effect, k: string)
    requires RI.Inv(t) && R.Enabled(t, e) && k in t.deployments && t.deployments[k].status == R.Removed
    ensures k in R.Apply(t, e).deployments
    ensures R.Apply(t, e).deployments[k].status == R.Removed <==> !(e.Deploys? && e.dep == k)
  {
    DeploymentStep(t, e, k);
    if TargetOf(e) == Some(k) {
      TargetStatus(t, e, k);
    }
  }

  /** A removed deployment is brought back by exactly one kind of step: an
      accepted success report of a deploy command that addresses it. */
  lemma RemovedUnlessRedeployed(ss: seq<State>, ops: seq<Op>, i: nat, k: string)
    requires Trace(ss, ops) && i < |ops| && Is(ss[i], k, R.Removed)
    ensures Is(ss[i + 1], k, R.Removed) <==> !DeploySuccess(ss[i], ops[i], k)
  {
    hide LeadsThrough, RI.Inv;
    var e := EffectAt(ss, ops, i);
    RemovedEffect(ss[i].tables, e, k);
  }

  /** Each deploy command is the one its own deployment names. */
  ghost predicate Linked(s: State) {
    && (forall k | k in s.tables.deployments :: s.tables.deployments[k].commandId in s.queue.commands)
    && (forall c | c in s.queue.commands && s.queue.commands[c].info.kind == C.DeployApplication ::
          var d := s.queue.commands[c].info.deploymentId;
          d in s.tables.deployments && s.tables.deployments[d].commandId == c)
  }

  /** The operations the handlers perform: deploy commands come from InitDeploy
      only, and every accepted report addresses its command's own deployment. */
  predicate Addressed(s: State, op: Op) {
    && (op.CreateCommand? ==> op.order.kind != C.DeployApplication)
    && (Finishes(s, op) ==> C.Target(s.queue.commands[op.id], op.report) == s.queue.commands[op.id].info.deploymentId)
  }

  predicate AllAddressed(ss: seq<State>, ops: seq<Op>)
    requires |ops| <= |ss|
  {
    forall i | 0 <= i < |ops| :: Addressed(ss[i], ops[i])
  }

  /** Deployments and commands of s are still there in s', with their links. */
  ghost predicate Carries(s: State, s': State) {
    && (forall k | k in s.tables.deployments ::
          k in s'.tables.deployments && s'.tables.deployments[k].commandId == s.tables.deployments[k].commandId)
    && (forall c | c in s.queue.commands :: c in s'.queue.commands && s'.queue.commands[c].info == s.queue.commands[c].info)
  }

  lemma CarriesAt(ss: seq<State>, ops: seq<Op>, i: nat)
    requires Trace(ss, ops) && i < |ops|
    ensures Carries(ss[i], ss[i + 1])
  {
    forall k | k in ss[i].tables.deployments {
      DeploymentAt(ss, ops, i, k);
    }
    forall c | c in ss[i].queue.commands {
      LaterAt(ss, ops, i, c);
    }
  }

  ghost predicate AddsNoDeploy(s: State, s': State) {
    && s'.tables.deployments.Keys == s.tables.deployments.Keys
    && forall c | c in s'.queue.commands && c !in s.queue.commands :: s'.queue.commands[c].info.kind != C.DeployApplication
  }

  /** New in s': deployment d with its deploy command c. */
  ghost predicate AddsPair(s: State, s': State, d: string, c: string) {
    && s'.tables.deployments.Keys == s.tables.deployments.Keys + {d}
    && s'.queue.commands.Keys == s.queue.commands.Keys + {c}
    && s'.queue.commands[c].info.deploymentId == d && s'.tables.deployments[d].commandId == c
  }

  lemma AddsPairStep(s: State, op: Op)
    requires op.InitDeploy?
    ensures AddsPair(s, Next(s, op), NextDeploymentId(s), NextCommandId(s))
  {
  }

  lemma NewCommandKind(s: State, op: Op, c: string)
    requires C.Inv(s.queue) && !op.InitDeploy? && c in QueueAfter(s, op).commands && c !in s.queue.commands
    ensures op.CreateCommand? && QueueAfter(s, op).commands[c].info.kind == op.order.kind
  {
  }

  lemma CreatesOnly(s: State, op: Op)
    requires !op.InitDeploy?
    ensures !EffectOf(s, op).Creates?
  {
  }

  lemma SameKeys(t: R.Tables, e: R.Effect)
    requires RI.Inv(t) && R.Enabled(t, e) && !e.Creates?
    ensures R.Apply(t, e).deployments.Keys == t.deployments.Keys
  {
    KeysStep(t, e);
  }

  lemma KeysAt(ss: seq<State>, ops: seq<Op>, i: nat)
    requires Trace(ss, ops) && i < |ops| && !ops[i].InitDeploy?
    ensures ss[i + 1].tables.deployments.Keys == ss[i].tables.deployments.Keys
  {
    var e := EffectAt(ss, ops, i);
    CreatesOnly(ss[i], ops[i]);
    SameKeys(ss[i].tables, e);
  }

  lemma NewKindAt(ss: seq<State>, ops: seq<Op>, i: nat, c: string)
    requires Trace(ss, ops) && i < |ops| && !ops[i].InitDeploy?
    requires c in ss[i + 1].queue.commands && c !in ss[i].queue.commands
    ensures ops[i].CreateCommand? && ss[i + 1].queue.commands[c].info.kind == ops[i].order.kind
  {
    QueueAt(ss, ops, i);
    NewCommandKind(ss[i], ops[i], c);
  }

  lemma AddsNoDeployAt(ss: seq<State>, ops: seq<Op>, i: nat)
    requires Trace(ss, ops) && i < |ops| && Addressed(ss[i], ops[i]) && !ops[i].InitDeploy?
    ensures AddsNoDeploy(ss[i], ss[i + 1])
  {
    KeysAt(ss, ops, i);
    forall c | c in ss[i + 1].queue.commands && c !in ss[i].queue.commands {
      NewKindAt(ss, ops, i, c);
    }
  }

  lemma LinkedKept(s: State, s': State, d: string, c: string)
    requires Linked(s) && Carries(s, s') && (AddsNoDeploy(s, s') || AddsPair(s, s', d, c))
    ensures Linked(s')
  {
  }

  ghost predicate LinkedHere(ss: seq<State>, i: nat)
    requires i < |ss|
  {
    Linked(ss[i])
  }

  lemma LinkedAt(ss: seq<State>, ops: seq<Op>, i: nat)
    requires Trace(ss, ops) && i < |ops| && LinkedHere(ss, i) && Addressed(ss[i], ops[i])
    ensures LinkedHere(ss, i + 1)
  {
    CarriesAt(ss, ops, i);
    if ops[i].InitDeploy? {
      TraceStep(ss, ops, i);
      AddsPairStep(ss[i], ops[i]);
    } else {
      AddsNoDeployAt(ss, ops, i);
    }
    LinkedKept(ss[i], ss[i + 1], NextDeploymentId(ss[i]), NextCommandId(ss[i]));
  }

  lemma InitialLinked(ss: seq<State>)
    requires ss != [] && ss[0] == INITIAL
    ensures LinkedHere(ss, 0)
  {
  }

  lemma {:induction false} LinkedAlways(ss: seq<State>, ops: seq<Op>, i: nat)
    requires Trace(ss, ops) && ss[0] == INITIAL && AllAddressed(ss, ops) && i <= |ops|
    ensures LinkedHere(ss, i)
  {
    hide LeadsThrough, LinkedHere;
    if i == 0 {
      InitialLinked(ss);
    } else {
      LinkedAlways(ss, ops, i - 1);
      LinkedAt(ss, ops, i - 1);
    }
  }

  /** The deploy command of deployment k has been finished. */
  predicate DeployDone(s: State, k: string) {
    && k in s.tables.deployments && s.tables.deployments[k].commandId in s.queue.commands
    && C.Terminal(s.queue.commands[s.tables.deployments[k].commandId].status)
  }

  /** When reports address their own deployments, removal is final once the
      deployment's own deploy command is finished. */
  lemma {:induction false} RemovalIsFinal(ss: seq<State>, ops: seq<Op>, i: nat, j: nat, k: string)
    requires Trace(ss, ops) && ss[0] == INITIAL && AllAddressed(ss, ops) && i <= j <= |ops|
    requires Is(ss[i], k, R.Removed) && DeployDone(ss[i], k)
    ensures Is(ss[j], k, R.Removed) && DeployDone(ss[j], k)
    decreases j - i
  {
    hide LeadsThrough;
    if i < j {
      RemovalIsFinal(ss, ops, i, j - 1, k);
      RemovedUnlessRedeployed(ss, ops, j - 1, k);
      LinkedAlways(ss, ops, j - 1);
      assert Addressed(ss[j - 1], ops[j - 1]);
      DeploymentAt(ss, ops, j - 1, k);
      LaterAt(ss, ops, j - 1, ss[j - 1].tables.deployments[k].commandId);
    }
  }
}
