/** What holds in every reachable state of the store. */
module MachineInvariant {
  import opened Base
  import opened Machine
  import Ids
  import F = Fleet
  import C = Commands
  import R = Routing
  import RI = RoutingInvariant

  // ---- gateway reports ----

  /** A report that was current when it came in, and settled the matter. */
  predicate Decisive(g: GatewayReport) { !g.stale && !g.invalid && !g.input.status.OtherStatus? }

  /** Flags agree with the version recorded in the entry, which the environment
      has not fallen below since. */
  ghost predicate EntryFenced(t: R.Tables, g: GatewayReport) {
    && (g.stale <==> g.input.version < g.currentVersion)
    && (g.invalid <==> g.input.version > g.currentVersion)
    && g.currentVersion <= R.VersionOf(t, g.input.environment)
  }

  ghost predicate Fenced(t: R.Tables, log: seq<GatewayReport>) {
    forall i | 0 <= i < |log| :: EntryFenced(t, log[i])
  }

  ghost predicate NonePending(t: R.Tables, environment: string) {
    forall k | k in t.deployments && t.deployments[k].info.environment == environment ::
      t.deployments[k].status != R.RoutePending
  }

  /** One verdict per version: once a report has settled the current version of
      an environment, no deployment there waits for one. */
  ghost predicate EntrySettled(t: R.Tables, g: GatewayReport) {
    Decisive(g) && g.input.version == R.VersionOf(t, g.input.environment) ==> NonePending(t, g.input.environment)
  }

  ghost predicate Settled(t: R.Tables, log: seq<GatewayReport>) {
    forall i | 0 <= i < |log| :: EntrySettled(t, log[i])
  }

  // ---- counting ----

  ghost function RouteCounts(t: R.Tables): map<string, nat> {
    map e | e in t.states :: |t.states[e].routes|
  }

  ghost function Weights(q: C.Queue, w: C.Command -> nat): map<string, nat> {
    map k | k in q.commands :: w(q.commands[k])
  }

  function Republishes(c: C.Command): nat {
    if c.status == C.Succeeded && (c.info.kind == C.DeployApplication || c.info.kind == C.RemoveDeployment) then 1 else 0
  }

  function Finished(c: C.Command): nat { if C.Terminal(c.status) then 1 else 0 }

  /** Routes, route numbers, versions, succeeded deploy and remove commands,
      reports and commands form a chain. */
  ghost predicate Conserved(s: State) {
    && Sum(RouteCounts(s.tables)) <= s.tables.routeSeq <= Sum(s.tables.versionSeq)
    && Sum(s.tables.versionSeq) <= Sum(Weights(s.queue, Republishes))
    && |s.queue.reports| == Sum(Weights(s.queue, Finished))
    && s.tables.deploymentSeq <= s.queue.commandSeq
  }

  ghost predicate Inv(s: State) {
    F.Inv(s.fleet) && C.Inv(s.queue) && RI.Inv(s.tables) && Conserved(s)
    && Fenced(s.tables, s.gatewayLog) && Settled(s.tables, s.gatewayLog)
  }

  // ---- effects and versions ----

  /** An effect changes the version of at most one environment, by one, and
      only a publication or withdrawal there does. */
  predicate Touches(t: R.Tables, e: R.Effect, environment: string) {
    match e
    case Deploys(dep, _, _, _) =>
      dep in t.deployments && R.Routed(t.deployments[dep]) && t.deployments[dep].info.environment == environment
    case Removes(dep, _) =>
      dep in t.deployments && t.deployments[dep].routeId != "" && t.deployments[dep].info.environment == environment
    case _ => false
  }

  /** Every effect leaves version and routes of an environment alone, or raises
      its version by exactly one. */
  lemma VersionStep(t: R.Tables, e: R.Effect, environment: string)
    requires RI.Inv(t) && R.Enabled(t, e)
    ensures var t' := R.Apply(t, e);
            if Touches(t, e, environment)
            then R.VersionOf(t', environment) == R.VersionOf(t, environment) + 1
            else R.Get(t', environment) == R.Get(t, environment)
  {
    hide RI.Inv;
    match e
    case Deploys(dep, ip, port, at) =>
      if dep in t.deployments && R.Routed(t.deployments[dep]) {
        RI.DeployPublishes(t, dep, ip, port, at);
      }
    case Removes(dep, at) =>
      if dep in t.deployments && t.deployments[dep].routeId != "" {
        RI.RemoveWithdraws(t, dep, at);
      }
    case _ =>
  }

  /** k is still there, with the same fixed part; only a target or a waiting
      deployment may look different. */
  ghost predicate Kept(t: R.Tables, t': R.Tables, e: R.Effect, k: string) {
    && k in t.deployments && k in t'.deployments
    && t'.deployments[k].info == t.deployments[k].info
    && t'.deployments[k].commandId == t.deployments[k].commandId
    && (TargetOf(e) != Some(k) && !e.Judges? ==> t'.deployments[k] == t.deployments[k])
  }

  lemma RewriteKept(t: R.Tables, e: R.Effect, k: string)
    requires RI.Inv(t) && Bumps(t, e) && k in t.deployments
    ensures Kept(t, R.Apply(t, e), e, k)
  {
    if e.Deploys? {
      RI.DeployPublishes(t, e.dep, e.ip, e.port, e.at);
    } else {
      RI.RemoveWithdraws(t, e.dep, e.at);
    }
  }

  lemma CalmKept(t: R.Tables, e: R.Effect, k: string)
    requires RI.Inv(t) && R.Enabled(t, e) && !Bumps(t, e) && k in t.deployments
    ensures Kept(t, R.Apply(t, e), e, k)
  {
    hide RI.Inv;
    RI.CreateKeepsNew(t, e);
  }

  /** Deployments are never dropped, their fixed part never changes, and an
      effect with one target leaves the others as they are. */
  lemma DeploymentStep(t: R.Tables, e: R.Effect, k: string)
    requires RI.Inv(t) && R.Enabled(t, e) && k in t.deployments
    ensures Kept(t, R.Apply(t, e), e, k)
  {
    if Bumps(t, e) {
      RewriteKept(t, e, k);
    } else {
      CalmKept(t, e, k);
    }
  }

  /** Only a creation adds a deployment. */
  lemma KeysStep(t: R.Tables, e: R.Effect)
    requires RI.Inv(t) && R.Enabled(t, e)
    ensures R.Apply(t, e).deployments.Keys == t.deployments.Keys + if e.Creates? then {e.info.id} else {}
  {
    hide RI.Inv, RI.TakesOver, RI.HoldsIdOf;
    match e
    case Deploys(dep, ip, port, at) =>
      if dep in t.deployments && R.Routed(t.deployments[dep]) {
        RI.DeployPublishes(t, dep, ip, port, at);
      }
    case Removes(dep, at) =>
      if dep in t.deployments && t.deployments[dep].routeId != "" {
        RI.RemoveWithdraws(t, dep, at);
      }
    case _ =>
  }

  function TargetOf(e: R.Effect): Option<string> {
    match e
    case Nothing => None
    case Creates(info, _) => Some(info.id)
    case Starts(dep, _) => Some(dep)
    case Fails(dep, _) => Some(dep)
    case Deploys(dep, _, _, _) => Some(dep)
    case Stops(dep, _) => Some(dep)
    case Removes(dep, _) => Some(dep)
    case Judges(_, _, _) => None
  }

  /** A deployment is only ever waiting for a verdict after a publication in
      its own environment. */
  lemma PendingStep(t: R.Tables, e: R.Effect, k: string)
    requires RI.Inv(t) && R.Enabled(t, e)
    requires k in R.Apply(t, e).deployments && R.Apply(t, e).deployments[k].status == R.RoutePending
    ensures k in t.deployments && R.Apply(t, e).deployments[k].info == t.deployments[k].info
    ensures t.deployments[k].status == R.RoutePending || Touches(t, e, t.deployments[k].info.environment)
  {
    KeysStep(t, e);
    if k in t.deployments {
      DeploymentStep(t, e, k);
      if e.Removes? && e.dep == k && t.deployments[k].routeId != "" {
        RI.RemoveWithdraws(t, k, e.at);
      }
    }
  }

  lemma StepEnabled(s: State, op: Op)
    ensures R.Enabled(s.tables, EffectOf(s, op))
  {
  }

  lemma EntryKept(t: R.Tables, e: R.Effect, g: GatewayReport)
    requires RI.Inv(t) && R.Enabled(t, e) && EntryFenced(t, g) && EntrySettled(t, g)
    ensures EntryFenced(R.Apply(t, e), g) && EntrySettled(R.Apply(t, e), g)
  {
    var t', env := R.Apply(t, e), g.input.environment;
    VersionStep(t, e, env);
    if Decisive(g) && g.input.version == R.VersionOf(t', env) {
      forall k | k in t'.deployments && t'.deployments[k].info.environment == env
        ensures t'.deployments[k].status != R.RoutePending
      {
        if t'.deployments[k].status == R.RoutePending {
          PendingStep(t, e, k);
        }
      }
    }
  }

  /** The entry a gateway report leaves fits the tables it leaves. */
  lemma EntryAdded(t: R.Tables, g: GatewayInput, now: Time, later: Time)
    requires RI.Inv(t)
    ensures var entry := LogEntry(t, g, now);
            var t' := if Decides(t, g) then R.Judge(t, g.environment, g.status == Applied, later) else t;
            EntryFenced(t', entry) && EntrySettled(t', entry)
  {
  }

  lemma LogStep(s: State, op: Op)
    requires RI.Inv(s.tables) && Fenced(s.tables, s.gatewayLog) && Settled(s.tables, s.gatewayLog) && !op.Reset?
    ensures var s' := Next(s, op); Fenced(s'.tables, s'.gatewayLog) && Settled(s'.tables, s'.gatewayLog)
  {
    hide RI.Inv, QueueAfter, R.Get, R.Create, R.Stop, R.Advance, R.Judge;
    var e := EffectOf(s, op);
    var t' := R.Apply(s.tables, e);
    forall i | 0 <= i < |s.gatewayLog|
      ensures EntryFenced(t', s.gatewayLog[i]) && EntrySettled(t', s.gatewayLog[i])
    {
      EntryKept(s.tables, e, s.gatewayLog[i]);
    }
    if op.ReportDesiredState? {
      EntryAdded(s.tables, op.gateway, op.now, op.later);
    }
  }

  // ---- counting steps ----

  /** The effect raises some version. */
  predicate Bumps(t: R.Tables, e: R.Effect) {
    match e
    case Deploys(dep, _, _, _) => dep in t.deployments && R.Routed(t.deployments[dep])
    case Removes(dep, _) => dep in t.deployments && t.deployments[dep].routeId != ""
    case _ => false
  }

  /** Nothing about routes changes: same desired states, same holdings, and no
      deployment becomes live. */
  ghost predicate Quietly(t: R.Tables, t': R.Tables) {
    && t'.states == t.states && t'.routeSeq == t.routeSeq && t'.versionSeq == t.versionSeq
    && (forall k | k in t.deployments ::
          && k in t'.deployments
          && t'.deployments[k].info == t.deployments[k].info && t'.deployments[k].routeId == t.deployments[k].routeId
          && (RI.Live(t'.deployments[k].status) ==> RI.Live(t.deployments[k].status)))
    && (forall k | k in t'.deployments && k !in t.deployments ::
          t'.deployments[k].routeId == "" && !RI.Live(t'.deployments[k].status))
  }

  lemma PutQuiet(t: R.Tables, id: string, d: R.Deployment)
    requires id in t.deployments && d.info == t.deployments[id].info && d.routeId == t.deployments[id].routeId
    requires RI.Live(d.status) ==> RI.Live(t.deployments[id].status)
    ensures Quietly(t, R.Put(t, id, d))
  {
  }

  lemma CreateQuiet(t: R.Tables, info: R.DeploymentInfo, commandId: string)
    requires info.id !in t.deployments
    ensures Quietly(t, R.Create(t, info, commandId))
  {
  }

  lemma JudgeQuiet(t: R.Tables, environment: string, applied: bool, at: Time)
    ensures Quietly(t, R.Judge(t, environment, applied, at))
  {
  }

  lemma SameQuiet(t: R.Tables)
    ensures Quietly(t, t)
  {
  }

  lemma QuietStep(t: R.Tables, e: R.Effect)
    requires RI.Inv(t) && R.Enabled(t, e) && !Bumps(t, e)
    ensures Quietly(t, R.Apply(t, e))
  {
    hide RI.Inv, RI.Keyed, R.Get, R.Create, R.Judge, Quietly;
    var t' := R.Apply(t, e);
    match e
    case Nothing => SameQuiet(t);
    case Creates(info, commandId) =>
      RI.CreateKeepsNew(t, e);
      CreateQuiet(t, info, commandId);
    case Judges(env, applied, at) => JudgeQuiet(t, env, applied, at);
    case _ =>
      if e.dep in t.deployments && t' != t {
        PutQuiet(t, e.dep, t'.deployments[e.dep]);
      } else {
        SameQuiet(t);
      }
  }

  /** Rewriting one environment changes the totals by that environment's change. */
  lemma CountRewrite(t: R.Tables, t': R.Tables, env: string, ds: R.DesiredState)
    requires RI.Versioned(t)
    requires t'.states == t.states[env := ds] && t'.versionSeq == t.versionSeq[env := ds.version]
    requires ds.version == R.VersionOf(t, env) + 1
    ensures Sum(t'.versionSeq) == Sum(t.versionSeq) + 1
    ensures Sum(RouteCounts(t')) == Sum(RouteCounts(t)) - |R.RoutesOf(t, env)| + |ds.routes|
  {
    hide RI.Inv;
    SumUpdate(t.versionSeq, env, ds.version);
    assert RouteCounts(t') == RouteCounts(t)[env := |ds.routes|];
    SumUpdate(RouteCounts(t), env, |ds.routes|);
  }

  lemma EffectCounts(t: R.Tables, e: R.Effect)
    requires RI.Inv(t) && R.Enabled(t, e)
    ensures var t' := R.Apply(t, e);
            && t.routeSeq <= t'.routeSeq
            && Sum(RouteCounts(t')) <= Sum(RouteCounts(t)) + (t'.routeSeq - t.routeSeq)
            && t'.routeSeq - t.routeSeq <= Sum(t'.versionSeq) - Sum(t.versionSeq)
            && Sum(t'.versionSeq) == Sum(t.versionSeq) + (if Bumps(t, e) then 1 else 0)
            && t'.deploymentSeq == t.deploymentSeq + (if e.Creates? then 1 else 0)
  {
    hide RI.Keyed, RI.Versioned;
    var t' := R.Apply(t, e);
    if Bumps(t, e) {
      var env := t.deployments[e.dep].info.environment;
      if e.Deploys? {
        RI.DeployShape(t, e.dep, e.ip, e.port, e.at);
      } else {
        RI.RemoveShape(t, e.dep, e.at);
        RI.WithoutSize(R.RoutesOf(t, env), t.deployments[e.dep].routeId);
      }
      CountRewrite(t, t', env, t'.states[env]);
    } else {
      assert RouteCounts(t') == RouteCounts(t);
    }
  }

  /** Replacing one command changes a weight total by that command's change. */
  lemma WeighOne(q: C.Queue, q': C.Queue, id: string, c: C.Command, w: C.Command -> nat)
    requires q'.commands == q.commands[id := c]
    ensures Sum(Weights(q', w)) == Sum(Weights(q, w)) + w(c) - (if id in q.commands then w(q.commands[id]) else 0)
  {
    assert Weights(q', w) == Weights(q, w)[id := w(c)];
    SumUpdate(Weights(q, w), id, w(c));
  }

  /** A step writes at most one command. */
  function Written(s: State, op: Op): string {
    match op
    case InitDeploy(_, _) => NextCommandId(s)
    case CreateCommand(_, _) => NextCommandId(s)
    case ClaimCommand(id, _, _) => id
    case StartCommand(id, _, _) => id
    case ReportCommand(id, _, _, _) => id
    case _ => ""
  }

  predicate CreatesCommand(op: Op) { op.InitDeploy? || op.CreateCommand? }

  predicate Finishes(s: State, op: Op) { op.ReportCommand? && C.CanFinish(s.queue, op.id, op.report.status) }

  lemma WriteStep(s: State, op: Op)
    requires C.Inv(s.queue) && QueueAfter(s, op).commands != s.queue.commands
    ensures var q, q', id := s.queue, QueueAfter(s, op), Written(s, op);
            && id in q'.commands && q'.commands == q.commands[id := q'.commands[id]]
            && (if id in q.commands
                then q'.commands[id].info == q.commands[id].info && !C.Terminal(q.commands[id].status)
                     && (C.Terminal(q'.commands[id].status) <==> Finishes(s, op))
                else CreatesCommand(op) && q'.commands[id].status == C.Pending)
  {
    hide Ids.Issued;
    Ids.NextIsFresh(Ids.CommandKind, s.queue.commandSeq);
  }

  /** What a step does to the command totals. */
  lemma QueueCounts(s: State, op: Op)
    requires C.Inv(s.queue)
    ensures var q, q' := s.queue, QueueAfter(s, op);
            && Sum(Weights(q', Finished)) == Sum(Weights(q, Finished)) + (if Finishes(s, op) then 1 else 0)
            && Sum(Weights(q', Republishes)) >= Sum(Weights(q, Republishes))
            && (Finishes(s, op) ==>
                  Sum(Weights(q', Republishes)) == Sum(Weights(q, Republishes)) + Republishes(q'.commands[op.id]))
  {
    var q, q' := s.queue, QueueAfter(s, op);
    if Finishes(s, op) {
      FinishWrites(s, op);
    }
    if q'.commands != q.commands {
      WriteStep(s, op);
      var id := Written(s, op);
      WeighOne(q, q', id, q'.commands[id], Finished);
      WeighOne(q, q', id, q'.commands[id], Republishes);
    }
  }

  lemma FinishWrites(s: State, op: Op)
    requires Finishes(s, op)
    ensures op.id in QueueAfter(s, op).commands
    ensures C.Terminal(QueueAfter(s, op).commands[op.id].status) && QueueAfter(s, op).commands != s.queue.commands
  {
    assert QueueAfter(s, op).commands[op.id].status != s.queue.commands[op.id].status;
  }

  lemma QueueLengths(s: State, op: Op)
    ensures var q, q' := s.queue, QueueAfter(s, op);
            && |q'.reports| == |q.reports| + (if Finishes(s, op) then 1 else 0)
            && q'.commandSeq == q.commandSeq + (if CreatesCommand(op) then 1 else 0)
  {
  }

  /** Only an accepted success of a deploy or remove command raises a version. */
  lemma BumpsWeigh(s: State, op: Op)
    requires Bumps(s.tables, EffectOf(s, op))
    ensures Finishes(s, op) && Republishes(QueueAfter(s, op).commands[op.id]) == 1
  {
  }

  lemma CreatesWithCommand(s: State, op: Op)
    ensures EffectOf(s, op).Creates? ==> CreatesCommand(op)
  {
  }

  lemma ConservedStep(s: State, op: Op)
    requires Inv(s) && !op.Reset?
    ensures Conserved(Next(s, op))
  {
    hide RI.Inv, C.Inv, F.Inv, Fenced, Settled, QueueAfter, EffectOf, R.Apply, Bumps, Finishes;
    CreatesWithCommand(s, op);
    StepEnabled(s, op);
    EffectCounts(s.tables, EffectOf(s, op));
    QueueCounts(s, op);
    QueueLengths(s, op);
    if Bumps(s.tables, EffectOf(s, op)) {
      BumpsWeigh(s, op);
    }
  }

  // ---- every step ----

  lemma QueueStep(s: State, op: Op)
    requires C.Inv(s.queue)
    ensures C.Inv(QueueAfter(s, op))
  {
    match op
    case InitDeploy(d, now) => C.AddKeeps(s.queue, DeployCommandInfo(d, NextDeploymentId(s), NextCommandId(s), now));
    case CreateCommand(order, now) => C.AddKeeps(s.queue, OrderInfo(order, NextCommandId(s), now));
    case ClaimCommand(id, agentId, now) => C.ClaimKeeps(s.queue, id, agentId, now);
    case StartCommand(id, agentId, now) => C.StartKeeps(s.queue, id, agentId, now);
    case ReportCommand(id, report, now, later) => C.FinishKeeps(s.queue, id, report, now);
    case _ =>
  }

  lemma TablesStep(s: State, op: Op)
    requires RI.Inv(s.tables)
    ensures RI.Inv(R.Apply(s.tables, EffectOf(s, op)))
  {
    StepEnabled(s, op);
    RI.ApplyKeeps(s.tables, EffectOf(s, op));
  }

  lemma InitialInv()
    ensures Inv(INITIAL)
  {
  }

  /** Every operation, accepted or refused, keeps the invariant. */
  lemma StepKeeps(s: State, op: Op)
    requires Inv(s)
    ensures Inv(Next(s, op))
  {
    if op.Reset? {
      InitialInv();
    } else {
      if op.RegisterAgent? {
        F.RegisterKeeps(s.fleet, op.identity, op.profile, op.now);
      }
      QueueStep(s, op);
      TablesStep(s, op);
      LogStep(s, op);
      ConservedStep(s, op);
    }
  }

  /** Main safety result: the invariant holds after any operations, in any
      order, from any callers. */
  lemma {:induction false} Reachable(s: State, ops: seq<Op>)
    requires Inv(s)
    ensures Inv(Run(s, ops))
  {
    if ops != [] {
      Reachable(s, ops[..|ops| - 1]);
      StepKeeps(Run(s, ops[..|ops| - 1]), ops[|ops| - 1]);
    }
  }

  /** After any run, every published route is truly owned. */
  lemma AlwaysOwned(ops: seq<Op>, e: string, r: R.Route)
    requires r in R.RoutesOf(Run(INITIAL, ops).tables, e)
    ensures RI.OwnedIn(Run(INITIAL, ops).tables, e, r)
  {
    InitialInv();
    Reachable(INITIAL, ops);
  }

  /** After any run, status, route id and place of a deployment fit together. */
  lemma StatusesAlwaysFit(ops: seq<Op>, k: string)
    requires k in Run(INITIAL, ops).tables.deployments
    ensures var d := Run(INITIAL, ops).tables.deployments[k];
            && (RI.Live(d.status) ==> d.info.requiresRoute && d.info.host != "" && d.routeId != "")
            && (d.routeId != "" ==> RI.Live(d.status) || d.status == R.Removed)
            && (d.status == R.Healthy ==> !(d.info.requiresRoute && d.info.host != "")) && d.status != R.Requested
  {
    InitialInv();
    Reachable(INITIAL, ops);
    assert RI.StatusOk(Run(INITIAL, ops).tables.deployments[k]);
  }

  /** After any run, the flags of a logged gateway report agree with the version
      it met, which the environment has not fallen below; and if it decided the
      version that is still current, no deployment there waits. */
  lemma LogAlwaysFits(ops: seq<Op>, i: nat, k: string)
    requires i < |Run(INITIAL, ops).gatewayLog|
    ensures var s := Run(INITIAL, ops);
            var g := s.gatewayLog[i];
            && (g.stale <==> g.input.version < g.currentVersion) && (g.invalid <==> g.input.version > g.currentVersion)
            && g.currentVersion <= R.VersionOf(s.tables, g.input.environment)
            && (Decisive(g) && g.input.version == R.VersionOf(s.tables, g.input.environment)
                && k in s.tables.deployments && s.tables.deployments[k].info.environment == g.input.environment
                ==> s.tables.deployments[k].status != R.RoutePending)
  {
    InitialInv();
    Reachable(INITIAL, ops);
    var s := Run(INITIAL, ops);
    assert EntryFenced(s.tables, s.gatewayLog[i]) && EntrySettled(s.tables, s.gatewayLog[i]);
  }

  /** After any run, agents and index keys correspond one to one. */
  lemma AgentsAlwaysIndexed(ops: seq<Op>, key: string, id: string)
    ensures var f := Run(INITIAL, ops).fleet;
            (key in f.index && f.index[key] == id) <==> (id in f.agents && Ids.AgentKey(f.agents[id].identity) == key)
  {
    InitialInv();
    Reachable(INITIAL, ops);
    var f := Run(INITIAL, ops).fleet;
    assert F.Indexed(f);
  }

  /** The conservation chain, over all environments. */
  lemma ConservationChain(ops: seq<Op>)
    ensures var s := Run(INITIAL, ops);
            && Sum(RouteCounts(s.tables)) <= s.tables.routeSeq
            && s.tables.routeSeq <= Sum(s.tables.versionSeq)
            && Sum(s.tables.versionSeq) <= Sum(Weights(s.queue, Republishes))
            && Sum(Weights(s.queue, Republishes)) <= |s.queue.reports|
            && |s.queue.reports| <= |s.queue.commands| == s.queue.commandSeq
            && |s.tables.deployments| == s.tables.deploymentSeq <= s.queue.commandSeq
            && Sum(s.fleet.agentSeq) == |s.fleet.agents|
  {
    hide Next;
    var s := Run(INITIAL, ops);
    InitialInv();
    Reachable(INITIAL, ops);
    SumMonotone(Weights(s.queue, Republishes), Weights(s.queue, Finished));
    SumBounded(Weights(s.queue, Finished), 1);
    assert Weights(s.queue, Finished).Keys == s.queue.commands.Keys;
    assert |Weights(s.queue, Finished)| == |Weights(s.queue, Finished).Keys|;
    assert |s.queue.commands| == |s.queue.commands.Keys|;
    Ids.IssuedCount(Ids.CommandKind, s.queue.commandSeq);
    assert |s.tables.deployments| == |s.tables.deployments.Keys|;
    Ids.IssuedCount(Ids.DeploymentKind, s.tables.deploymentSeq);
  }
}
