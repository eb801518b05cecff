/** How the status of a deployment follows the status of its deploy command, in
    every run of the operations the handlers perform in which reports address
    their own deployments, and when exactly a failure report marks its deployment
    as failed. */
module Outcomes {
  import opened Base
  import opened Machine
  import opened MachineInvariant
  import opened History
  import opened Lifecycle
  import Ids
  import C = Commands
  import R = Routing
  import RI = RoutingInvariant

  /** What a deployment looks like while its deploy command is c; once removed it
      may stay so whatever the command does. */
  predicate Fits(c: C.Command, status: R.DeploymentStatus) {
    || status == R.Removed
    || match c.status
       case Pending => status == R.CommandCreated
       case Claimed => status == R.CommandCreated
       case Running => status == R.Deploying || status == R.DeployFailed
       case Succeeded => status == R.Healthy || RI.Live(status)
       case Failed => status == if c.startedAt.Some? then R.DeployFailed else R.CommandCreated
  }

  /** Deployment k names a deploy command that is about k, and their statuses fit. */
  predicate Coupled(s: State, k: string) {
    && k in s.tables.deployments && s.tables.deployments[k].commandId in s.queue.commands
    && var c := s.queue.commands[s.tables.deployments[k].commandId];
       && c.info.kind == C.DeployApplication && c.info.deploymentId == k && Fits(c, s.tables.deployments[k].status)
  }

  // ---- one step ----

  /** What an effect does to the status of an existing deployment. */
  lemma StatusStep(t: R.Tables, e: R.Effect, k: string)
    requires RI.Inv(t) && R.Enabled(t, e) && k in t.deployments
    ensures k in R.Apply(t, e).deployments && R.Apply(t, e).deployments[k].commandId == t.deployments[k].commandId
    ensures var from, to := t.deployments[k].status, R.Apply(t, e).deployments[k].status;
            match e
            case Starts(dep, _) => to == if dep == k && from == R.CommandCreated then R.Deploying else from
            case Fails(dep, _) => to == if dep == k && from == R.Deploying then R.DeployFailed else from
            case Deploys(dep, _, _, _) =>
              if dep == k then to == R.RoutePending || to == R.Healthy else to == from
            case Stops(dep, _) => to == if dep == k then R.Removed else from
            case Removes(dep, _) => to == if dep == k then R.Removed else from
            case Judges(_, _, _) => to == from || (RI.Live(from) && RI.Live(to))
            case _ => to == from
  {
    DeploymentStep(t, e, k);
    RI.CreateKeepsNew(t, e);
    if TargetOf(e) == Some(k) {
      TargetStatus(t, e, k);
    }
  }

  /** The command that starts or deploys k is its own deploy command. */
  lemma OwnCommand(s: State, op: Op, k: string)
    requires Linked(s) && Addressed(s, op) && Coupled(s, k)
    ensures var e := EffectOf(s, op);
            && (e.Starts? && e.dep == k ==> op.StartCommand? && op.id == s.tables.deployments[k].commandId)
            && (e.Deploys? && e.dep == k ==> Finishes(s, op) && op.id == s.tables.deployments[k].commandId)
  {
  }

  /** What a start or a report does to a command, as far as it matters here. */
  lemma CommandStep(s: State, op: Op, c: string)
    requires C.Inv(s.queue) && c in s.queue.commands
    ensures c in QueueAfter(s, op).commands && QueueAfter(s, op).commands[c].info == s.queue.commands[c].info
    ensures var was, now := s.queue.commands[c], QueueAfter(s, op).commands[c];
            match op
            case StartCommand(id, agentId, _) =>
              if id == c && C.CanStart(s.queue, id, agentId) then now.status == C.Running && now.startedAt.Some?
              else now == was
            case ReportCommand(id, report, _, _) =>
              if id == c && Finishes(s, op) then now.status == C.Final(report.status) && now.startedAt == was.startedAt
              else now == was
            case ClaimCommand(_, _, _) =>
              now == was || (was.status == C.Pending && now.status == C.Claimed)
            case _ => now == was
    ensures s.queue.commands[c].status == C.Claimed ==> s.queue.commands[c].startedAt == None
    ensures s.queue.commands[c].status == C.Running ==> s.queue.commands[c].startedAt.Some?
  {
    hide Ids.Issued;
    Ids.NextIsFresh(Ids.CommandKind, s.queue.commandSeq);
    assert C.LifecycleOk(s.queue.commands[c]);
  }

  /** A deploy command that is started starts its own deployment. */
  lemma OwnStart(s: State, op: Op, k: string)
    requires RI.Keyed(s.tables) && Coupled(s, k) && op.StartCommand? && op.id == s.tables.deployments[k].commandId
    requires C.CanStart(s.queue, op.id, op.agentId)
    ensures EffectOf(s, op) == R.Starts(k, op.now)
  {
    RI.DeploymentIdNotEmpty(s.tables, k);
  }

  lemma StartFits(s: State, op: Op, k: string)
    requires Inv(s) && Linked(s) && Addressed(s, op) && Coupled(s, k) && op.StartCommand?
    ensures Coupled(Next(s, op), k)
  {
    hide RI.Inv, C.Inv, F.Inv, Conserved, Fenced, Settled, R.Apply, QueueAfter, Linked;
    StepEnabled(s, op);
    StatusStep(s.tables, EffectOf(s, op), k);
    CommandStep(s, op, s.tables.deployments[k].commandId);
    OwnCommand(s, op, k);
    if op.id == s.tables.deployments[k].commandId && C.CanStart(s.queue, op.id, op.agentId) {
      KeyedNow(s);
      OwnStart(s, op, k);
    }
  }

  lemma KeyedNow(s: State)
    requires Inv(s)
    ensures RI.Keyed(s.tables)
  {
  }

  lemma ReportFits(s: State, op: Op, k: string)
    requires Inv(s) && Linked(s) && Addressed(s, op) && Coupled(s, k) && op.ReportCommand?
    ensures Coupled(Next(s, op), k)
  {
    hide RI.Inv, C.Inv, F.Inv, Conserved, Fenced, Settled, R.Apply, QueueAfter, Linked;
    StepEnabled(s, op);
    StatusStep(s.tables, EffectOf(s, op), k);
    CommandStep(s, op, s.tables.deployments[k].commandId);
    OwnCommand(s, op, k);
  }

  lemma OtherFits(s: State, op: Op, k: string)
    requires Inv(s) && Coupled(s, k) && !op.StartCommand? && !op.ReportCommand? && !op.Reset?
    ensures Coupled(Next(s, op), k)
  {
    hide RI.Inv, C.Inv, F.Inv, Conserved, Fenced, Settled, R.Apply, QueueAfter;
    StepEnabled(s, op);
    StatusStep(s.tables, EffectOf(s, op), k);
    CommandStep(s, op, s.tables.deployments[k].commandId);
  }

  /** A new deployment starts out fitting its new command. */
  lemma NewFits(s: State, op: Op)
    requires op.InitDeploy?
    ensures Coupled(Next(s, op), NextDeploymentId(s))
  {
  }

  // ---- whole runs ----

  ghost predicate CoupledHere(ss: seq<State>, i: nat, k: string)
    requires i < |ss|
  {
    Coupled(ss[i], k)
  }

  lemma CoupledAt(ss: seq<State>, ops: seq<Op>, i: nat, k: string)
    requires Trace(ss, ops) && ss[0] == INITIAL && AllAddressed(ss, ops) && i < |ops| && CoupledHere(ss, i, k)
    ensures CoupledHere(ss, i + 1, k)
  {
    TraceGood(ss, ops, i);
    TraceStep(ss, ops, i);
    LinkedAlways(ss, ops, i);
    hide Trace, LeadsThrough, Coupled, Linked, Inv, Next;
    assert Addressed(ss[i], ops[i]);
    if ops[i].StartCommand? {
      StartFits(ss[i], ops[i], k);
    } else if ops[i].ReportCommand? {
      ReportFits(ss[i], ops[i], k);
    } else {
      OtherFits(ss[i], ops[i], k);
    }
  }

  /** Where a deployment comes from: it was there before, or this step made it. */
  lemma NewlyCoupled(ss: seq<State>, ops: seq<Op>, i: nat, k: string)
    requires Trace(ss, ops) && i < |ops| && k in ss[i + 1].tables.deployments && k !in ss[i].tables.deployments
    ensures CoupledHere(ss, i + 1, k)
  {
    TraceStep(ss, ops, i);
    if ops[i].InitDeploy? {
      NewFits(ss[i], ops[i]);
      AddsPairStep(ss[i], ops[i]);
    } else {
      KeysAt(ss, ops, i);
    }
  }

  /** In every run of handler-style operations every deployment fits its deploy
      command, at every point. */
  lemma {:induction false} AlwaysCoupled(ss: seq<State>, ops: seq<Op>, i: nat, k: string)
    requires Trace(ss, ops) && ss[0] == INITIAL && AllAddressed(ss, ops) && i <= |ops| && k in ss[i].tables.deployments
    ensures CoupledHere(ss, i, k)
  {
    hide LeadsThrough;
    if i > 0 {
      if k in ss[i - 1].tables.deployments {
        AlwaysCoupled(ss, ops, i - 1, k);
        CoupledAt(ss, ops, i - 1, k);
      } else {
        NewlyCoupled(ss, ops, i - 1, k);
      }
    }
  }

  /** Each deploy command has its own deployment, whose status is determined by
      the command, up to removal and what the gateway or a failed command about
      the same deployment may do to it. */
  lemma DeploymentFollowsCommand(ss: seq<State>, ops: seq<Op>, i: nat, c: string)
    requires Trace(ss, ops) && ss[0] == INITIAL && AllAddressed(ss, ops) && i <= |ops|
    requires c in ss[i].queue.commands && ss[i].queue.commands[c].info.kind == C.DeployApplication
    ensures var cmd := ss[i].queue.commands[c];
            var k := cmd.info.deploymentId;
            && k in ss[i].tables.deployments && ss[i].tables.deployments[k].commandId == c
            && var status := ss[i].tables.deployments[k].status;
               && (cmd.status == C.Pending || cmd.status == C.Claimed ==> status in {R.CommandCreated, R.Removed})
               && (cmd.status == C.Running ==> status in {R.Deploying, R.DeployFailed, R.Removed})
               && (cmd.status == C.Succeeded ==>
                     status in {R.Healthy, R.RoutePending, R.RouteActive, R.RouteFailed, R.Removed})
               && (cmd.status == C.Failed && cmd.startedAt.Some? ==> status in {R.DeployFailed, R.Removed})
               && (cmd.status == C.Failed && cmd.startedAt.None? ==> status in {R.CommandCreated, R.Removed})
  {
    hide LeadsThrough;
    LinkedAlways(ss, ops, i);
    AlwaysCoupled(ss, ops, i, ss[i].queue.commands[c].info.deploymentId);
  }

  /** A failed deploy command has marked its deployment, unless that is removed,
      as failed exactly when the command had been started. */
  lemma FailureSeenIffStarted(ss: seq<State>, ops: seq<Op>, i: nat, c: string)
    requires Trace(ss, ops) && ss[0] == INITIAL && AllAddressed(ss, ops) && i <= |ops|
    requires c in ss[i].queue.commands && ss[i].queue.commands[c].info.kind == C.DeployApplication
    requires ss[i].queue.commands[c].status == C.Failed
    ensures var k := ss[i].queue.commands[c].info.deploymentId;
            && k in ss[i].tables.deployments
            && (ss[i].tables.deployments[k].status != R.Removed ==>
                  (ss[i].tables.deployments[k].status == R.DeployFailed <==> ss[i].queue.commands[c].startedAt.Some?))
  {
    DeploymentFollowsCommand(ss, ops, i, c);
  }

  /** An accepted failure report of a deploy command leaves its deployment failed
      exactly when the command was running, and not merely claimed, and the
      deployment was not removed already. */
  lemma FailureReportSeenIffRunning(ss: seq<State>, ops: seq<Op>, i: nat)
    requires Trace(ss, ops) && ss[0] == INITIAL && AllAddressed(ss, ops) && i < |ops|
    requires Finishes(ss[i], ops[i]) && ops[i].report.status == C.ReportedFailed
    requires ss[i].queue.commands[ops[i].id].info.kind == C.DeployApplication
    ensures var c := ss[i].queue.commands[ops[i].id];
            Is(ss[i + 1], c.info.deploymentId, R.DeployFailed) <==>
            c.status == C.Running && !Is(ss[i], c.info.deploymentId, R.Removed)
  {
    hide LeadsThrough, RI.Inv;
    var k := ss[i].queue.commands[ops[i].id].info.deploymentId;
    DeploymentFollowsCommand(ss, ops, i, ops[i].id);
    var e := EffectAt(ss, ops, i);
    assert Addressed(ss[i], ops[i]) && e == R.Fails(k, ops[i].now);
    StatusStep(ss[i].tables, e, k);
  }
}
