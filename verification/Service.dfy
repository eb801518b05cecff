/** Whole runs on the real store: any sequence of operations leaves the store
    with the value, and gives the answers, that the state machine says, while
    copies handed out earlier stay as they are. */
module Service {
  import opened Base
  import opened Collections
  import opened Records
  import opened Snapshots
  import opened Stores
  import Ids
  import F = Fleet
  import C = Commands
  import R = Routing
  import M = Machine
  import MI = MachineInvariant
  import P = Restarts

  /** A store whose index names no missing agent: the only thing besides being
      well formed that operations ask for. */
  ghost predicate Ready(s: Store)
    reads s, s.Repr, s.agents, s.agentIndex, s.desiredStates, s.desiredStates.entries.Values
  {
    s.Valid() && s.agentIndex.entries.Values <= s.agents.entries.Keys
  }

  lemma ReadyIffResolved(s: Store)
    requires s.Valid()
    ensures Ready(s) <==> F.Resolved(s.Abs().fleet)
  {
    assert s.FleetView().agents.Keys == s.agents.entries.Keys;
  }

  /** The index resolves again after any operation. */
  lemma NextResolved(s: M.State, op: M.Op)
    requires F.Resolved(s.fleet)
    ensures F.Resolved(M.Next(s, op).fleet)
  {
    if op.RegisterAgent? {
      F.RegisterResolves(s.fleet, op.identity, op.profile, op.now);
    }
  }

  // ---- one operation ----

  method Register(s: Store, op: M.Op) returns (reply: M.Reply)
    requires Ready(s) && op.RegisterAgent?
    modifies s.Repr
    ensures s.Valid() && s.Grows()
    ensures s.Abs() == M.Next(old(s.Abs()), op) && reply == M.Answer(old(s.Abs()), op)
  {
    var a := s.RegisterAgent(op.identity, op.profile, op.now);
    reply := M.AgentReply(a.View());
    M.RegisterIsNext(old(s.Abs()), s.Abs(), op, a.View());
  }

  method Deploy(s: Store, op: M.Op) returns (reply: M.Reply)
    requires s.Valid() && op.InitDeploy?
    modifies s.Repr
    ensures s.Valid() && s.Grows()
    ensures s.Abs() == M.Next(old(s.Abs()), op) && reply == M.Answer(old(s.Abs()), op)
  {
    hide Store.FleetView, Store.QueueView, Store.TablesView, Store.LogView;
    hide M.Next, M.Answer, M.DeploymentInfoOf, M.DeployCommandInfo, R.NewDeployment, C.New, C.Add, R.Create;
    var dep, cmd := s.InitDeploy(op.deploy, op.now);
    reply := M.DeployReply(dep.View(), cmd.View());
    M.DeployIsNext(old(s.Abs()), s.Abs(), op, dep.View(), cmd.View());
  }

  method Create(s: Store, op: M.Op) returns (reply: M.Reply)
    requires s.Valid() && op.CreateCommand?
    modifies s.Repr
    ensures s.Valid() && s.Grows()
    ensures s.Abs() == M.Next(old(s.Abs()), op) && reply == M.Answer(old(s.Abs()), op)
  {
    var cmd := s.CreateCommand(op.order, op.now);
    reply := M.CreatedReply(cmd.View());
    M.CreateIsNext(old(s.Abs()), s.Abs(), op, cmd.View());
  }

  method Claim(s: Store, op: M.Op) returns (reply: M.Reply)
    requires s.Valid() && op.ClaimCommand?
    modifies s.Repr
    ensures s.Valid() && s.Grows()
    ensures s.Abs() == M.Next(old(s.Abs()), op) && reply == M.Answer(old(s.Abs()), op)
  {
    var r := s.ClaimCommand(op.id, op.agentId, op.now);
    reply := M.CommandReply(ReplyView(r));
    M.ClaimIsNext(old(s.Abs()), s.Abs(), op, ReplyView(r));
  }

  method Start(s: Store, op: M.Op) returns (reply: M.Reply)
    requires s.Valid() && op.StartCommand?
    modifies s.Repr
    ensures s.Valid() && s.Grows()
    ensures s.Abs() == M.Next(old(s.Abs()), op) && reply == M.Answer(old(s.Abs()), op)
  {
    var r := s.StartCommand(op.id, op.agentId, op.now);
    reply := M.CommandReply(ReplyView(r));
    M.StartIsNext(old(s.Abs()), s.Abs(), op, ReplyView(r));
  }

  method Report(s: Store, op: M.Op) returns (reply: M.Reply)
    requires s.Valid() && op.ReportCommand?
    modifies s.Repr
    ensures s.Valid() && s.Grows()
    ensures s.Abs() == M.Next(old(s.Abs()), op) && reply == M.Answer(old(s.Abs()), op)
  {
    var r := s.ReportCommand(op.id, op.report, op.now, op.later);
    reply := M.ReportReply(r);
    M.ReportIsNext(old(s.Abs()), s.Abs(), op, r);
  }

  method GatewayReport(s: Store, op: M.Op) returns (reply: M.Reply)
    requires s.Valid() && op.ReportDesiredState?
    modifies s.Repr
    ensures s.Valid() && s.Grows()
    ensures s.Abs() == M.Next(old(s.Abs()), op) && reply == M.Answer(old(s.Abs()), op)
  {
    var entry, future := s.ApplyDesiredStateReport(op.gateway, op.now, op.later);
    reply := M.GatewayReply(entry, future);
    M.GatewayIsNext(old(s.Abs()), s.Abs(), op, entry);
  }

  /** A restart: another store takes over a snapshot of s. */
  method TakeOver(s: Store, s': Store)
    requires s.Valid() && s != s'
    modifies s'
    ensures s'.Valid() && fresh(s'.Repr - {s'}) && s'.Abs() == old(s.Abs())
  {
    hide FleetObjects, QueueObjects, TablesObjects, SavedView, Whole, Store.Valid, Store.Abs;
    var snap := s.Snapshot();
    s'.Restore(snap);
  }

  method Restart(s: Store) returns (s': Store)
    requires s.Valid()
    ensures s'.Valid() && fresh(s'.Repr) && s'.Abs() == old(s.Abs())
  {
    hide Store.Valid, Store.FleetView, Store.QueueView;
    s' := new Store();
    s.Untouched();
    TakeOver(s, s');
  }

  method Read(s: Store, op: M.Op) returns (reply: M.Reply)
    requires s.Valid() && op.GetDesiredState?
    ensures s.Valid() && s.Abs() == M.Next(old(s.Abs()), op) && reply == M.Answer(old(s.Abs()), op)
  {
    var ds := s.GetDesiredState(op.environment);
    s.Untouched();
    reply := M.DesiredStateReply(ds.View());
    M.ReadIsNext(old(s.Abs()), op);
  }

  /** Every object of s' belonged to s before, or is new. */
  twostate predicate Succeeds(s: Store, new s': Store)
    reads s'
  {
    forall o | o in s'.Repr :: o in old(s.Repr) || fresh(o)
  }

  /** One operation other than a restart, on the store itself. */
  method Operate(s: Store, op: M.Op) returns (reply: M.Reply)
    requires Ready(s) && !op.Restart?
    modifies s.Repr
    ensures s.Valid() && s.Grows()
    ensures s.Abs() == M.Next(old(s.Abs()), op) && reply == M.Answer(old(s.Abs()), op)
  {
    match op {
      case RegisterAgent(_, _, _) => reply := Register(s, op);
      case InitDeploy(_, _) => reply := Deploy(s, op);
      case CreateCommand(_, _) => reply := Create(s, op);
      case ClaimCommand(_, _, _) => reply := Claim(s, op);
      case StartCommand(_, _, _) => reply := Start(s, op);
      case ReportCommand(_, _, _, _) => reply := Report(s, op);
      case ReportDesiredState(_, _, _) => reply := GatewayReport(s, op);
      case GetDesiredState(_) => reply := Read(s, op);
      case Reset =>
        s.Reset();
        reply := M.Done;
    }
  }

  /** Runs one operation.  Only a restart leads to another store. */
  method Execute(s: Store, op: M.Op) returns (s': Store, reply: M.Reply)
    requires Ready(s)
    modifies s.Repr
    ensures Ready(s') && Succeeds(s, s')
    ensures s'.Abs() == M.Next(old(s.Abs()), op) && reply == M.Answer(old(s.Abs()), op)
  {
    ReadyIffResolved(s);
    NextResolved(s.Abs(), op);
    if op.Restart? {
      s' := Restart(s);
      reply := M.Done;
      M.ReadIsNext(old(s.Abs()), op);
    } else {
      s' := s;
      reply := Operate(s, op);
    }
    ReadyIffResolved(s');
  }

  // ---- whole runs ----

  /** Runs a sequence of operations and collects the answers. */
  method Serve(s: Store, ops: seq<M.Op>) returns (s': Store, replies: seq<M.Reply>)
    requires Ready(s)
    modifies s.Repr
    ensures Ready(s') && Succeeds(s, s')
    ensures s'.Abs() == M.Run(old(s.Abs()), ops) && replies == M.Answers(old(s.Abs()), ops)
  {
    ghost var start := s.Abs();
    s', replies := s, [];
    for i := 0 to |ops|
      invariant Ready(s') && Succeeds(s, s')
      invariant s'.Abs() == M.Run(start, ops[..i]) && replies == M.Answers(start, ops[..i])
    {
      var reply;
      s', reply := Execute(s', ops[i]);
      replies := replies + [reply];
      M.RunNext(start, ops, i);
    }
    assert ops[..|ops|] == ops;
  }

  /** Restarts are invisible: a run with restarts anywhere leaves the value, and
      gives the other answers, that the run without them would. */
  method ServeThroughRestarts(s: Store, ops: seq<M.Op>) returns (s': Store, replies: seq<M.Reply>)
    requires Ready(s)
    modifies s.Repr
    ensures Ready(s') && Succeeds(s, s') && |replies| == |ops|
    ensures s'.Abs() == M.Run(old(s.Abs()), P.Proper(ops))
    ensures P.ProperReplies(ops, replies) == M.Answers(old(s.Abs()), P.Proper(ops))
  {
    P.RestartsInvisible(s.Abs(), ops);
    s', replies := Serve(s, ops);
  }

  /** Whatever a new store is asked to do, it ends in a state that satisfies the
      invariant of the state machine. */
  method ServeFromStart(ops: seq<M.Op>) returns (s: Store, replies: seq<M.Reply>)
    ensures Ready(s) && fresh(s.Repr) && MI.Inv(s.Abs())
    ensures s.Abs() == M.Run(M.INITIAL, ops) && replies == M.Answers(M.INITIAL, ops)
  {
    hide Store.Valid, Store.Abs, MI.Inv;
    var first := new Store();
    ReadyIffResolved(first);
    s, replies := Serve(first, ops);
    MI.InitialInv();
    MI.Reachable(M.INITIAL, ops);
  }

  // ---- isolation ----

  /** A desired state that was handed out goes on showing what it showed,
      whatever the store does afterwards. */
  method CopyOutlivesRun(s: Store, environment: string, ops: seq<M.Op>)
    returns (ds: DesiredStateRecord, s': Store, replies: seq<M.Reply>)
    requires Ready(s)
    modifies s.Repr
    ensures ds.Valid() && ds.View() == R.Get(old(s.Abs()).tables, environment)
    ensures Ready(s') && s'.Abs() == M.Run(old(s.Abs()), ops) && replies == M.Answers(old(s.Abs()), ops)
  {
    ds := s.GetDesiredState(environment);
    s.Untouched();
    s', replies := Serve(s, ops);
  }

  /** Writing to a copy that was handed out does not reach the store. */
  method StoreOutlivesCopy(s: Store, environment: string, routeId: string) returns (ds: DesiredStateRecord)
    requires s.Valid()
    ensures s.Valid() && s.Abs() == old(s.Abs())
    ensures ds.Valid() && ds.View().routes == R.Without(R.RoutesOf(old(s.Abs()).tables, environment), routeId)
  {
    hide Store.FleetView, Store.QueueView, Store.LogView, R.Without;
    ds := s.GetDesiredState(environment);
    ds.Filter(routeId);
    s.Untouched();
  }

  /** A run leaves alone whatever does not belong to the store. */
  method ServeAround(s: Store, ops: seq<M.Op>, ghost others: set<object>) returns (s': Store, replies: seq<M.Reply>)
    requires Ready(s) && others !! s.Repr
    modifies s.Repr
    ensures unchanged(others)
    ensures Ready(s') && s'.Abs() == M.Run(old(s.Abs()), ops) && replies == M.Answers(old(s.Abs()), ops)
  {
    s', replies := Serve(s, ops);
  }

  /** So it leaves a snapshot alone that shares nothing with the store. */
  method ServeBeside(s: Store, ops: seq<M.Op>, snap: Snapshot) returns (s': Store, replies: seq<M.Reply>)
    requires Ready(s) && Whole(snap) && Objects(snap) !! s.Repr
    modifies s.Repr
    ensures Whole(snap) && SavedView(snap) == old(SavedView(snap))
    ensures Ready(s') && s'.Abs() == M.Run(old(s.Abs()), ops) && replies == M.Answers(old(s.Abs()), ops)
  {
    hide FleetObjects, QueueObjects, TablesObjects;
    s', replies := ServeAround(s, ops, Objects(snap));
    SnapshotUntouched(snap);
  }

  /** A snapshot goes on standing for the store it was taken from, whatever the
      store does afterwards: they share no map, no log and no record. */
  method SnapshotOutlivesRun(s: Store, ops: seq<M.Op>) returns (snap: Snapshot, s': Store, replies: seq<M.Reply>)
    requires Ready(s)
    modifies s.Repr
    ensures Whole(snap) && SavedView(snap) == old(s.Abs())
    ensures Ready(s') && s'.Abs() == M.Run(old(s.Abs()), ops) && replies == M.Answers(old(s.Abs()), ops)
  {
    hide FleetObjects, QueueObjects, TablesObjects, SavedView, Whole;
    snap := s.Snapshot();
    s.Untouched();
    s', replies := ServeBeside(s, ops, snap);
  }
}
