/** Environments do not interfere, over steps and whole runs of the store. */
module Independence {
  import opened Base
  import opened Machine
  import opened MachineInvariant
  import opened History
  import S = Separation
  import C = Commands
  import R = Routing
  import RI = RoutingInvariant
  import F = Fleet

  // ---- whole runs ----

  /** Step i works outside env. */
  ghost predicate Elsewhere(ss: seq<State>, ops: seq<Op>, i: nat, env: string)
    requires i < |ss| && i < |ops|
  {
    S.Place(ss[i].tables, EffectOf(ss[i], ops[i])) != Some(env)
  }

  lemma ElsewhereAt(ss: seq<State>, ops: seq<Op>, i: nat, env: string)
    requires Trace(ss, ops) && i < |ops| && Elsewhere(ss, ops, i, env)
    ensures S.SameIn(ss[i].tables, ss[i + 1].tables, env)
  {
    var e := EffectAt(ss, ops, i);
    S.OthersUntouched(ss[i].tables, e, env);
  }

  lemma SameInTransitive(t: R.Tables, t1: R.Tables, t2: R.Tables, env: string)
    requires S.SameIn(t, t1, env) && S.SameIn(t1, t2, env)
    ensures S.SameIn(t, t2, env)
  {
    forall k
      ensures R.Within(t, k, env) <==> R.Within(t2, k, env)
    {
      assert R.Within(t, k, env) <==> R.Within(t1, k, env);
    }
  }

  /** A stretch of a run whose steps all work elsewhere leaves the deployments,
      routes and version of an environment exactly as they were. */
  lemma {:induction false} EnvironmentsDoNotInterfere(ss: seq<State>, ops: seq<Op>, i: nat, j: nat, env: string)
    requires Trace(ss, ops) && i <= j <= |ops|
    requires forall m | i <= m < j :: Elsewhere(ss, ops, m, env)
    ensures S.SameIn(ss[i].tables, ss[j].tables, env)
    decreases j - i
  {
    if i < j {
      EnvironmentsDoNotInterfere(ss, ops, i, j - 1, env);
      ElsewhereAt(ss, ops, j - 1, env);
      SameInTransitive(ss[i].tables, ss[j - 1].tables, ss[j].tables, env);
    }
  }

  // ---- two steps ----

  /** Two effects work in different environments, and do not both create a
      deployment, which would compete for the next id. */
  predicate ApartOrNew(t: R.Tables, a: R.Effect, b: R.Effect) {
    && S.Place(t, a).Some? && S.Place(t, b).Some? && S.Place(t, a) != S.Place(t, b)
    && !(a.Creates? && b.Creates?)
  }

  /** p and q work in different environments and on different commands; one of
      them may create a deployment with its command. */
  predicate Independent(s: State, p: Op, q: Op) {
    && ApartOrNew(s.tables, EffectOf(s, p), EffectOf(s, q))
    && (p.ReportDesiredState? || q.ReportDesiredState? || Written(s, p) != Written(s, q))
  }

  /** The counters that new ids come from. */
  predicate SameCounters(s: State, s': State) {
    s'.queue.commandSeq == s.queue.commandSeq && s'.tables.deploymentSeq == s.tables.deploymentSeq
  }

  /** An operation with an effect in some environment adds a command only if it
      creates a deployment. */
  lemma CountersStay(s: State, p: Op)
    requires Inv(s) && S.Place(s.tables, EffectOf(s, p)).Some? && !p.InitDeploy?
    ensures SameCounters(s, Next(s, p)) && !EffectOf(s, p).Creates?
  {
    hide RI.Inv, F.Inv, C.Inv, Conserved, Fenced, Settled, R.Apply;
    StepEnabled(s, p);
    EffectCounts(s.tables, EffectOf(s, p));
    QueueLengths(s, p);
  }

  predicate SameCommand(q: C.Queue, q': C.Queue, id: string) {
    if id in q.commands then id in q'.commands && q'.commands[id] == q.commands[id] else id !in q'.commands
  }

  lemma CommandUnseen(s: State, p: Op, id: string)
    requires p.ReportDesiredState? || id != Written(s, p)
    ensures SameCommand(s.queue, QueueAfter(s, p), id)
  {
  }

  /** What an operation does and answers depends on its environment, its command
      and, if it creates a deployment, the counters. */
  lemma UnseenBy(s: State, s': State, q: Op)
    requires S.Place(s.tables, EffectOf(s, q)).Some?
    requires S.SameIn(s.tables, s'.tables, S.Place(s.tables, EffectOf(s, q)).value)
    requires q.ReportDesiredState? || SameCommand(s.queue, s'.queue, Written(s, q))
    requires q.InitDeploy? ==> SameCounters(s, s')
    ensures EffectOf(s', q) == EffectOf(s, q) && Answer(s', q) == Answer(s, q)
  {
  }

  /** After a step elsewhere an operation does and answers the same. */
  lemma StepUnseen(s: State, p: Op, q: Op)
    requires Inv(s) && Independent(s, p, q)
    ensures EffectOf(Next(s, p), q) == EffectOf(s, q) && Answer(Next(s, p), q) == Answer(s, q)
  {
    StepEnabled(s, p);
    S.OthersUntouched(s.tables, EffectOf(s, p), S.Place(s.tables, EffectOf(s, q)).value);
    if q.InitDeploy? {
      CountersStay(s, p);
    }
    hide Inv, R.Apply, QueueAfter, Answer;
    if !q.ReportDesiredState? {
      CommandUnseen(s, p, Written(s, q));
    }
    UnseenBy(s, Next(s, p), q);
  }

  lemma TablesAfterTwo(s: State, p: Op, q: Op)
    requires Inv(s) && Independent(s, p, q)
    ensures Next(Next(s, p), q).tables == R.Apply(R.Apply(s.tables, EffectOf(s, p)), EffectOf(s, q))
  {
    StepUnseen(s, p, q);
    hide Inv, Independent, R.Apply, EffectOf, QueueAfter, Answer;
  }

  lemma IndependentSymmetric(s: State, p: Op, q: Op)
    requires Independent(s, p, q)
    ensures Independent(s, q, p)
  {
  }

  lemma ApartOrNewCommute(t: R.Tables, a: R.Effect, b: R.Effect)
    requires RI.Inv(t) && ApartOrNew(t, a, b) && R.Enabled(t, a) && R.Enabled(t, b)
    ensures S.SameUpToNewIds(t.routeSeq, S.BothCreateRoutes(t, a, b), R.Apply(R.Apply(t, a), b), R.Apply(R.Apply(t, b), a))
  {
    hide RI.Inv;
    if a.Creates? {
      S.CreationCommutes(t, a.info, a.commandId, b);
    } else if b.Creates? {
      S.CreationCommutes(t, b.info, b.commandId, a);
    } else {
      S.AllEffectsCommute(t, a, b);
    }
  }

  /** Steps of two environments commute on the tables, up to exchanging the ids
      of the two routes when both create one. */
  lemma StepsCommute(s: State, p: Op, q: Op)
    requires Inv(s) && Independent(s, p, q)
    ensures S.SameUpToNewIds(s.tables.routeSeq, S.BothCreateRoutes(s.tables, EffectOf(s, p), EffectOf(s, q)),
                             Next(Next(s, p), q).tables, Next(Next(s, q), p).tables)
  {
    hide RI.Inv, R.Apply, EffectOf, Next, S.SameUpToNewIds, S.BothCreateRoutes;
    IndependentSymmetric(s, p, q);
    TablesAfterTwo(s, p, q);
    TablesAfterTwo(s, q, p);
    StepEnabled(s, p);
    StepEnabled(s, q);
    ApartOrNewCommute(s.tables, EffectOf(s, p), EffectOf(s, q));
  }
}
