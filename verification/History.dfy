/** Results about whole runs without a reset: what versions, route ids, statuses
    and claims mean over time. */
module History {
  import opened Base
  import opened Machine
  import opened MachineInvariant
  import Ids
  import F = Fleet
  import C = Commands
  import R = Routing
  import RI = RoutingInvariant

  predicate Steps(s: State, op: Op, s': State) { !op.Reset? && s' == Next(s, op) }

  /** The first n operations lead through the first n + 1 states, from a state
      that satisfies the invariant, with no reset among them. */
  ghost predicate LeadsThrough(ss: seq<State>, ops: seq<Op>, n: nat)
    requires n <= |ops| < |ss|
  {
    if n == 0 then Inv(ss[0])
    else LeadsThrough(ss, ops, n - 1) && Steps(ss[n - 1], ops[n - 1], ss[n])
  }

  /** The states ss that the operations ops lead through. */
  ghost predicate Trace(ss: seq<State>, ops: seq<Op>) {
    |ss| == |ops| + 1 && LeadsThrough(ss, ops, |ops|)
  }

  ghost function States(s: State, ops: seq<Op>): (ss: seq<State>)
    ensures |ss| == |ops| + 1
  {
    if ops == [] then [s] else States(s, ops[..|ops| - 1]) + [Run(s, ops)]
  }

  lemma {:induction false} SameStart(ss: seq<State>, ops: seq<Op>, ss': seq<State>, ops': seq<Op>, n: nat)
    requires n <= |ops| < |ss| && n <= |ops'| < |ss'| && LeadsThrough(ss, ops, n)
    requires forall i | 0 <= i <= n :: ss'[i] == ss[i]
    requires forall i | 0 <= i < n :: ops'[i] == ops[i]
    ensures LeadsThrough(ss', ops', n)
  {
    if n > 0 {
      SameStart(ss, ops, ss', ops', n - 1);
    }
  }

  /** Every reset-free run has a trace, which ends in the state the run reaches. */
  lemma {:induction false} RunsAreTraces(s: State, ops: seq<Op>)
    requires Inv(s) && ResetFree(ops)
    ensures Trace(States(s, ops), ops) && States(s, ops)[0] == s && States(s, ops)[|ops|] == Run(s, ops)
  {
    hide RI.Inv, EffectOf, QueueAfter, Next;
    if ops != [] {
      var n := |ops| - 1;
      RunsAreTraces(s, ops[..n]);
      SameStart(States(s, ops[..n]), ops[..n], States(s, ops), ops, n);
    }
  }

  /** The invariant holds at position i. */
  ghost predicate Good(ss: seq<State>, i: nat)
    requires i < |ss|
  {
    Inv(ss[i])
  }

  lemma GoodNext(ss: seq<State>, h: nat, i: nat, op: Op)
    requires i < |ss| && i == h + 1 && Good(ss, h) && Steps(ss[h], op, ss[i])
    ensures Good(ss, i)
  {
    StepKeeps(ss[h], op);
  }

  lemma {:induction false} LedStep(ss: seq<State>, ops: seq<Op>, n: nat, i: nat)
    requires i < n <= |ops| < |ss| && LeadsThrough(ss, ops, n)
    ensures Steps(ss[i], ops[i], ss[i + 1])
  {
    hide Inv, Steps;
    if i < n - 1 {
      LedStep(ss, ops, n - 1, i);
    }
  }

  lemma TraceStep(ss: seq<State>, ops: seq<Op>, i: nat)
    requires Trace(ss, ops) && i < |ops|
    ensures Steps(ss[i], ops[i], ss[i + 1])
  {
    LedStep(ss, ops, |ops|, i);
  }

  lemma {:induction false} LedBefore(ss: seq<State>, ops: seq<Op>, n: nat, i: nat)
    requires i <= n <= |ops| < |ss| && LeadsThrough(ss, ops, n)
    ensures LeadsThrough(ss, ops, i)
  {
    if i < n {
      LedBefore(ss, ops, n - 1, i);
    }
  }

  lemma {:induction false} LedGood(ss: seq<State>, ops: seq<Op>, n: nat)
    requires n <= |ops| < |ss| && LeadsThrough(ss, ops, n)
    ensures Good(ss, n)
  {
    hide QueueAfter, Next;
    if n > 0 {
      LedGood(ss, ops, n - 1);
      GoodNext(ss, n - 1, n, ops[n - 1]);
    }
  }

  lemma TraceGood(ss: seq<State>, ops: seq<Op>, i: nat)
    requires Trace(ss, ops) && i <= |ops|
    ensures Good(ss, i)
  {
    LedBefore(ss, ops, |ops|, i);
    LedGood(ss, ops, i);
  }

  // ---- versions ----

  lemma TablesGood(ss: seq<State>, ops: seq<Op>, i: nat)
    requires Trace(ss, ops) && i <= |ops|
    ensures RI.Inv(ss[i].tables)
  {
    TraceGood(ss, ops, i);
  }

  /** What one step of a trace does to the tables. */
  lemma EffectAt(ss: seq<State>, ops: seq<Op>, i: nat) returns (e: R.Effect)
    requires Trace(ss, ops) && i < |ops|
    ensures e == EffectOf(ss[i], ops[i]) && R.Enabled(ss[i].tables, e) && RI.Inv(ss[i].tables)
    ensures ss[i + 1].tables == R.Apply(ss[i].tables, e)
  {
    TraceGood(ss, ops, i);
    TraceStep(ss, ops, i);
    StepEnabled(ss[i], ops[i]);
    e := EffectOf(ss[i], ops[i]);
  }

  lemma VersionAt(ss: seq<State>, ops: seq<Op>, i: nat, env: string)
    requires Trace(ss, ops) && i < |ops|
    ensures var t, t' := ss[i].tables, ss[i + 1].tables;
            R.Get(t', env) == R.Get(t, env) || R.VersionOf(t', env) == R.VersionOf(t, env) + 1
  {
    var e := EffectAt(ss, ops, i);
    VersionStep(ss[i].tables, e, env);
  }

  /** A version identifies the published content: whenever an environment shows
      the same version twice, it shows the same routes; versions never fall. */
  lemma {:induction false} VersionIdentifiesContent(ss: seq<State>, ops: seq<Op>, i: nat, j: nat, env: string)
    requires Trace(ss, ops) && i <= j <= |ops|
    ensures R.VersionOf(ss[i].tables, env) <= R.VersionOf(ss[j].tables, env)
    ensures R.VersionOf(ss[i].tables, env) == R.VersionOf(ss[j].tables, env) ==>
              R.Get(ss[i].tables, env) == R.Get(ss[j].tables, env)
    decreases j - i
  {
    hide LeadsThrough;
    if i < j {
      VersionIdentifiesContent(ss, ops, i, j - 1, env);
      VersionAt(ss, ops, j - 1, env);
    }
  }

  lemma VersionsGrow(ss: seq<State>, ops: seq<Op>, i: nat, j: nat, env: string)
    requires Trace(ss, ops) && i <= j <= |ops|
    ensures R.VersionOf(ss[i].tables, env) <= R.VersionOf(ss[j].tables, env)
  {
    VersionIdentifiesContent(ss, ops, i, j, env);
  }

  // ---- deployments over time ----

  predicate Is(s: State, k: string, status: R.DeploymentStatus) {
    k in s.tables.deployments && s.tables.deployments[k].status == status
  }

  function EnvOf(s: State, k: string): string
    requires k in s.tables.deployments
  {
    s.tables.deployments[k].info.environment
  }

  lemma DeploymentAt(ss: seq<State>, ops: seq<Op>, i: nat, k: string)
    requires Trace(ss, ops) && i < |ops| && k in ss[i].tables.deployments
    ensures k in ss[i + 1].tables.deployments
    ensures ss[i + 1].tables.deployments[k].info == ss[i].tables.deployments[k].info
    ensures ss[i + 1].tables.deployments[k].commandId == ss[i].tables.deployments[k].commandId
  {
    var e := EffectAt(ss, ops, i);
    DeploymentStep(ss[i].tables, e, k);
  }

  /** Once created, a deployment stays, with the same fixed part. */
  lemma {:induction false} DeploymentsStay(ss: seq<State>, ops: seq<Op>, i: nat, j: nat, k: string)
    requires Trace(ss, ops) && i <= j <= |ops| && k in ss[i].tables.deployments
    ensures k in ss[j].tables.deployments
    ensures ss[j].tables.deployments[k].info == ss[i].tables.deployments[k].info
    ensures ss[j].tables.deployments[k].commandId == ss[i].tables.deployments[k].commandId
    decreases j - i
  {
    if i < j {
      DeploymentsStay(ss, ops, i, j - 1, k);
      DeploymentAt(ss, ops, j - 1, k);
    }
  }

  // ---- publications and verdicts ----

  lemma PendingAt(ss: seq<State>, ops: seq<Op>, i: nat, k: string, env: string)
    requires Trace(ss, ops) && i < |ops| && Is(ss[i + 1], k, R.RoutePending)
    requires k in ss[i].tables.deployments && EnvOf(ss[i], k) == env
    ensures Is(ss[i], k, R.RoutePending) || R.VersionOf(ss[i].tables, env) < R.VersionOf(ss[i + 1].tables, env)
  {
    var e := EffectAt(ss, ops, i);
    PendingStep(ss[i].tables, e, k);
    VersionStep(ss[i].tables, e, env);
  }

  predicate IsVerdict(status: R.DeploymentStatus) { status == R.RouteActive || status == R.RouteFailed }

  /** The status an effect gives to its target. */
  lemma TargetStatus(t: R.Tables, e: R.Effect, k: string)
    requires RI.Inv(t) && R.Enabled(t, e) && k in t.deployments && TargetOf(e) == Some(k)
    ensures k in R.Apply(t, e).deployments
    ensures var from, to := t.deployments[k].status, R.Apply(t, e).deployments[k].status;
            match e
            case Starts(_, _) => to == if from == R.CommandCreated then R.Deploying else from
            case Fails(_, _) => to == if from == R.Deploying then R.DeployFailed else from
            case Deploys(_, _, _, _) => to == if R.Routed(t.deployments[k]) then R.RoutePending else R.Healthy
            case _ => to == R.Removed
  {
    match e
    case Creates(info, commandId) => RI.CreateKeeps(t, info, commandId);
    case Deploys(dep, ip, port, at) =>
      if R.Routed(t.deployments[dep]) {
        RI.DeployPublishes(t, dep, ip, port, at);
      }
    case Removes(dep, at) =>
      if t.deployments[dep].routeId != "" {
        RI.RemoveWithdraws(t, dep, at);
      }
    case _ =>
  }

  /** A verdict is only ever passed on a waiting deployment, by a report for its
      environment that names the current version. */
  ghost predicate JudgedAt(s: State, op: Op, k: string, verdict: R.DeploymentStatus) {
    && Is(s, k, R.RoutePending) && op.ReportDesiredState? && Decides(s.tables, op.gateway)
    && op.gateway.environment == EnvOf(s, k) && verdict == R.StatusFor(op.gateway.status == Applied)
  }

  lemma VerdictAt(ss: seq<State>, ops: seq<Op>, i: nat, k: string)
    requires Trace(ss, ops) && i < |ops|
    requires k in ss[i + 1].tables.deployments && IsVerdict(ss[i + 1].tables.deployments[k].status)
    ensures k in ss[i].tables.deployments
    ensures Is(ss[i], k, ss[i + 1].tables.deployments[k].status)
            || JudgedAt(ss[i], ops[i], k, ss[i + 1].tables.deployments[k].status)
  {
    hide LeadsThrough, RI.Inv, R.Apply;
    var e := EffectAt(ss, ops, i);
    VerdictSource(ss[i].tables, e, k);
    if e.Judges? {
      JudgesOnly(ss[i], ops[i]);
    }
  }

  /** Only a decisive gateway report judges. */
  lemma JudgesOnly(s: State, op: Op)
    requires EffectOf(s, op).Judges?
    ensures op.ReportDesiredState? && Decides(s.tables, op.gateway)
    ensures var e := EffectOf(s, op); e.environment == op.gateway.environment && (e.applied <==> op.gateway.status == Applied)
  {
  }

  lemma VerdictSource(t: R.Tables, e: R.Effect, k: string)
    requires RI.Inv(t) && R.Enabled(t, e)
    requires k in R.Apply(t, e).deployments && IsVerdict(R.Apply(t, e).deployments[k].status)
    ensures k in t.deployments
    ensures t.deployments[k].status == R.Apply(t, e).deployments[k].status
            || (&& e.Judges? && t.deployments[k].status == R.RoutePending && e.environment == t.deployments[k].info.environment
                && R.Apply(t, e).deployments[k].status == R.StatusFor(e.applied))
  {
    KeysStep(t, e);
    if k in t.deployments {
      DeploymentStep(t, e, k);
      if TargetOf(e) == Some(k) {
        TargetStatus(t, e, k);
      }
    }
  }

  // ---- one deployment over time ----

  /** How deployment k and the version of its environment look at some point. */
  datatype Moment = Moment(status: R.DeploymentStatus, version: nat)

  function MomentOf(s: State, k: string): Moment
    requires k in s.tables.deployments
  {
    Moment(s.tables.deployments[k].status, R.VersionOf(s.tables, EnvOf(s, k)))
  }

  /** What one step may do: versions do not fall, waiting begins with a rise, and
      a verdict is passed on a waiting deployment only. */
  predicate Follows(m: Moment, m': Moment) {
    && m.version <= m'.version
    && (m'.status == R.RoutePending ==> m.status == R.RoutePending || m.version < m'.version)
    && (IsVerdict(m'.status) ==> m.status == m'.status || m.status == R.RoutePending)
  }

  ghost predicate MomentAt(ss: seq<State>, i: nat, k: string, m: Moment) {
    i < |ss| && k in ss[i].tables.deployments && MomentOf(ss[i], k) == m
  }

  lemma StepFollows(ss: seq<State>, ops: seq<Op>, i: nat, k: string, m: Moment) returns (m': Moment)
    requires Trace(ss, ops) && i < |ops| && MomentAt(ss, i, k, m)
    ensures MomentAt(ss, i + 1, k, m') && Follows(m, m')
  {
    DeploymentAt(ss, ops, i, k);
    VersionAt(ss, ops, i, EnvOf(ss[i], k));
    if Is(ss[i + 1], k, R.RoutePending) {
      PendingAt(ss, ops, i, k, EnvOf(ss[i], k));
    } else if IsVerdict(ss[i + 1].tables.deployments[k].status) {
      VerdictAt(ss, ops, i, k);
    }
    m' := MomentOf(ss[i + 1], k);
  }

  ghost predicate Timeline(ms: seq<Moment>) {
    forall i | 0 <= i < |ms| - 1 :: Follows(ms[i], ms[i + 1])
  }

  /** ms is how k looks from position i on. */
  ghost predicate Moments(ss: seq<State>, i: nat, k: string, ms: seq<Moment>) {
    forall h | 0 <= h < |ms| :: MomentAt(ss, i + h, k, ms[h])
  }

  lemma MomentsLonger(ss: seq<State>, i: nat, k: string, ms: seq<Moment>, p: nat, m: Moment)
    requires Moments(ss, i, k, ms) && p == i + |ms| && MomentAt(ss, p, k, m)
    ensures Moments(ss, i, k, ms + [m])
  {
  }

  lemma MomentsNext(ss: seq<State>, ops: seq<Op>, i: nat, k: string, ms: seq<Moment>) returns (m: Moment)
    requires Trace(ss, ops) && ms != [] && i + |ms| <= |ops| && Moments(ss, i, k, ms)
    ensures Moments(ss, i, k, ms + [m]) && Follows(ms[|ms| - 1], m)
  {
    var n := |ms| - 1;
    var p := i + n;
    assert MomentAt(ss, p, k, ms[n]);
    m := StepFollows(ss, ops, p, k, ms[n]);
    MomentsLonger(ss, i, k, ms, p + 1, m);
  }

  lemma TimelineLonger(ms: seq<Moment>, m: Moment)
    requires ms != [] && Timeline(ms) && Follows(ms[|ms| - 1], m)
    ensures Timeline(ms + [m])
  {
  }

  lemma {:induction false} MomentsFollow(ss: seq<State>, ops: seq<Op>, i: nat, n: nat, k: string, m: Moment)
    returns (ms: seq<Moment>)
    requires Trace(ss, ops) && i + n <= |ops| && MomentAt(ss, i, k, m)
    ensures Timeline(ms) && |ms| == n + 1 && ms[0] == m && Moments(ss, i, k, ms)
  {
    if n == 0 {
      ms := [m];
    } else {
      ms := MomentsFollow(ss, ops, i, n - 1, k, m);
      var m' := MomentsNext(ss, ops, i, k, ms);
      TimelineLonger(ms, m');
      ms := ms + [m'];
    }
  }

  lemma {:induction false} PendingRaises(ms: seq<Moment>, j: nat)
    requires Timeline(ms) && j < |ms| && ms[0].status != R.RoutePending
    ensures ms[0].version <= ms[j].version && (ms[j].status == R.RoutePending ==> ms[0].version < ms[j].version)
  {
    if j > 0 {
      PendingRaises(ms, j - 1);
      assert Follows(ms[j - 1], ms[j]);
    }
  }

  lemma {:induction false} VerdictWaited(ms: seq<Moment>, j: nat) returns (m: nat)
    requires Timeline(ms) && j < |ms| && IsVerdict(ms[j].status) && ms[0].status != R.RoutePending
    requires ms[0].status != ms[j].status
    ensures 0 < m < j && ms[m].status == R.RoutePending
  {
    assert Follows(ms[j - 1], ms[j]);
    if ms[j - 1].status == R.RoutePending {
      m := j - 1;
    } else {
      m := VerdictWaited(ms, j - 1);
    }
  }

  /** No deployment gets a new verdict unless it was published again, at a
      strictly larger version, in between. */
  lemma OneVerdictPerVersion(ss: seq<State>, ops: seq<Op>, i: nat, j: nat, k: string, was: Moment, now: Moment)
    returns (h: nat, pending: Moment)
    requires Trace(ss, ops) && i <= j <= |ops| && MomentAt(ss, i, k, was) && MomentAt(ss, j, k, now)
    requires was.status != R.RoutePending && IsVerdict(now.status) && was.status != now.status
    ensures i < h < j && MomentAt(ss, h, k, pending)
    ensures pending.status == R.RoutePending && was.version < pending.version
  {
    hide LeadsThrough;
    var ms := MomentsFollow(ss, ops, i, j - i, k, was);
    assert MomentAt(ss, i + (j - i), k, ms[j - i]);
    var m := VerdictWaited(ms, j - i);
    PendingRaises(ms, m);
    h, pending := i + m, ms[m];
  }

  // ---- activation follows publication ----

  /** The table as a routed deploy success of k left it: k's host is served by
      k, at the address that was reported. */
  ghost predicate PublishedAt(s: State, k: string) {
    && k in s.tables.deployments
    && var d := s.tables.deployments[k];
       exists r :: r in R.RoutesOf(s.tables, d.info.environment) && r.host == d.info.host && r.deploymentId == k
                   && r.id == d.routeId && r.upstream == Ids.BuildUpstream(d.runtimePrivateIP, d.hostPort)
  }

  /** The step is an accepted success report of a deploy command for k. */
  predicate DeploySuccess(s: State, op: Op, k: string) {
    && Finishes(s, op) && op.report.status == C.ReportedSucceeded
    && s.queue.commands[op.id].info.kind == C.DeployApplication
    && C.Target(s.queue.commands[op.id], op.report) == k
  }

  lemma PublicationAt(ss: seq<State>, ops: seq<Op>, i: nat, k: string)
    requires Trace(ss, ops) && i < |ops| && Is(ss[i + 1], k, R.RoutePending)
    requires !(Is(ss[i], k, R.RoutePending) && ss[i].tables.deployments[k] == ss[i + 1].tables.deployments[k])
    ensures DeploySuccess(ss[i], ops[i], k) && PublishedAt(ss[i + 1], k)
  {
    hide R.Apply, QueueAfter, Next, Inv;
    var e := EffectAt(ss, ops, i);
    PublicationEffect(ss[i].tables, e, k);
  }

  lemma PublicationEffect(t: R.Tables, e: R.Effect, k: string)
    requires RI.Inv(t) && R.Enabled(t, e)
    requires k in R.Apply(t, e).deployments && R.Apply(t, e).deployments[k].status == R.RoutePending
    requires k !in t.deployments || t.deployments[k] != R.Apply(t, e).deployments[k]
    ensures e.Deploys? && e.dep == k
    ensures var d := R.Apply(t, e).deployments[k];
            exists r :: r in R.RoutesOf(R.Apply(t, e), d.info.environment) && r.host == d.info.host && r.deploymentId == k
                        && r.id == d.routeId && r.upstream == Ids.BuildUpstream(d.runtimePrivateIP, d.hostPort)
  {
    PendingStep(t, e, k);
    DeploymentStep(t, e, k);
    if TargetOf(e) == Some(k) {
      TargetStatus(t, e, k);
      if e.Deploys? {
        RI.DeployPublishes(t, k, e.ip, e.port, e.at);
      }
    }
  }

  /** k is in the tables at position m exactly as described by d. */
  ghost predicate Shows(ss: seq<State>, m: nat, k: string, d: R.Deployment) {
    m < |ss| && k in ss[m].tables.deployments && ss[m].tables.deployments[k] == d
  }

  /** Step i is the latest publication of k before position j, and k has stayed
      as d since. */
  ghost predicate PublishedSince(ss: seq<State>, ops: seq<Op>, i: nat, j: nat, k: string, d: R.Deployment) {
    && i < j <= |ops| < |ss| && DeploySuccess(ss[i], ops[i], k) && PublishedAt(ss[i + 1], k)
    && (forall m | i < m <= j :: Shows(ss, m, k, d))
    && (forall m | i < m < j :: !DeploySuccess(ss[m], ops[m], k))
  }

  lemma SinceLonger(ss: seq<State>, ops: seq<Op>, i: nat, j: nat, k: string, d: R.Deployment)
    requires PublishedSince(ss, ops, i, j, k, d) && j < |ops| && Shows(ss, j + 1, k, d) && !DeploySuccess(ss[j], ops[j], k)
    ensures PublishedSince(ss, ops, i, j + 1, k, d)
  {
  }

  /** A deploy success that leaves k waiting has published it. */
  lemma SuccessPublishes(ss: seq<State>, ops: seq<Op>, i: nat, k: string)
    requires Trace(ss, ops) && i < |ops| && DeploySuccess(ss[i], ops[i], k) && Is(ss[i + 1], k, R.RoutePending)
    ensures PublishedAt(ss[i + 1], k)
  {
    hide LeadsThrough, RI.Inv, QueueAfter, Inv;
    var e := EffectAt(ss, ops, i);
    assert e.Deploys? && e.dep == k;
    PendingStep(ss[i].tables, e, k);
    TargetStatus(ss[i].tables, e, k);
    RI.DeployPublishes(ss[i].tables, k, e.ip, e.port, e.at);
  }

  lemma SinceNow(ss: seq<State>, ops: seq<Op>, i: nat, k: string, d: R.Deployment)
    requires Trace(ss, ops) && i < |ops| && Shows(ss, i + 1, k, d) && d.status == R.RoutePending
    requires DeploySuccess(ss[i], ops[i], k) || !Shows(ss, i, k, d)
    ensures PublishedSince(ss, ops, i, i + 1, k, d)
  {
    if DeploySuccess(ss[i], ops[i], k) {
      SuccessPublishes(ss, ops, i, k);
    } else {
      PublicationAt(ss, ops, i, k);
    }
  }

  lemma InitialShowsNone(ss: seq<State>, k: string, d: R.Deployment)
    requires ss != [] && ss[0] == INITIAL
    ensures !Shows(ss, 0, k, d)
  {
  }

  /** A waiting deployment is exactly as its latest publication left it. */
  lemma {:induction false} PendingSincePublication(ss: seq<State>, ops: seq<Op>, j: nat, k: string, d: R.Deployment)
    returns (i: nat)
    requires Trace(ss, ops) && ss[0] == INITIAL && j <= |ops|
    requires Shows(ss, j, k, d) && d.status == R.RoutePending
    ensures PublishedSince(ss, ops, i, j, k, d)
  {
    hide LeadsThrough, DeploySuccess, PublishedAt;
    InitialShowsNone(ss, k, d);
    if Shows(ss, j - 1, k, d) && !DeploySuccess(ss[j - 1], ops[j - 1], k) {
      i := PendingSincePublication(ss, ops, j - 1, k, d);
      SinceLonger(ss, ops, i, j - 1, k, d);
    } else {
      i := j - 1;
      SinceNow(ss, ops, j - 1, k, d);
    }
  }

  /** Activation never rests on an old route table: when a gateway report turns
      k to a verdict, k has waited unchanged since its latest publication, whose
      version is at most the reported one and left k's host served by k. */
  lemma ActivationFollowsPublication(ss: seq<State>, ops: seq<Op>, j: nat, k: string) returns (i: nat)
    requires Trace(ss, ops) && ss[0] == INITIAL && j < |ops|
    requires k in ss[j + 1].tables.deployments && IsVerdict(ss[j + 1].tables.deployments[k].status)
    requires !Is(ss[j], k, ss[j + 1].tables.deployments[k].status)
    ensures k in ss[j].tables.deployments
    ensures PublishedSince(ss, ops, i, j, k, ss[j].tables.deployments[k])
    ensures ops[j].ReportDesiredState? && ops[j].gateway.environment == EnvOf(ss[j], k)
    ensures R.VersionOf(ss[i + 1].tables, EnvOf(ss[j], k)) <= ops[j].gateway.version
    ensures ops[j].gateway.version == R.VersionOf(ss[j].tables, EnvOf(ss[j], k))
  {
    hide LeadsThrough, DeploySuccess, PublishedAt;
    VerdictAt(ss, ops, j, k);
    i := PendingSincePublication(ss, ops, j, k, ss[j].tables.deployments[k]);
    VersionsGrow(ss, ops, i + 1, j, EnvOf(ss[j], k));
  }

  /** A judgement changes the tables exactly when some deployment waits. */
  lemma JudgeChanges(t: R.Tables, env: string, applied: bool, at: Time)
    ensures var t' := R.Judge(t, env, applied, at);
            t'.states == t.states && (t' != t <==> !NonePending(t, env)) && NonePending(t', env)
  {
    var t' := R.Judge(t, env, applied, at);
    if NonePending(t, env) {
      assert t'.deployments == t.deployments;
    } else {
      var k :| k in t.deployments && t.deployments[k].info.environment == env && t.deployments[k].status == R.RoutePending;
      assert t'.deployments[k] != t.deployments[k];
    }
  }

  /** A gateway report changes the tables exactly when it names the current
      version with a verdict and some deployment of the environment waits: then
      every waiting one there gets the verdict.  Stale and future reports change
      nothing but the log. */
  lemma OnlyCurrentReportsCount(s: State, g: GatewayInput, now: Time, later: Time)
    ensures var s' := Next(s, ReportDesiredState(g, now, later));
            && s'.queue == s.queue && s'.fleet == s.fleet && s'.tables.states == s.tables.states
            && (s'.tables != s.tables <==> Decides(s.tables, g) && !NonePending(s.tables, g.environment))
            && (Decides(s.tables, g) ==> NonePending(s'.tables, g.environment))
  {
    hide R.Get, R.Judge, NonePending, R.Create, R.Deploy, R.Remove;
    JudgeChanges(s.tables, g.environment, g.status == Applied, later);
  }
}
