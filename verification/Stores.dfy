/** The store itself (internal/store): tables of shared records updated in place
    under one lock.  Every method refines one step of the state machine: the
    views are the value of the store, and each method says which value it leaves
    and what it answers. */
module Stores {
  import opened Base
  import opened Collections
  import opened Records
  import opened Snapshots
  import Ids
  import F = Fleet
  import C = Commands
  import R = Routing
  import M = Machine

  function ReplyView(r: C.Reply<CommandRecord>): C.Reply<C.Command>
    reads if r.Accepted? then {r.value} else {}
  {
    match r
    case Accepted(c) => C.Accepted(c.View())
    case Refused(why) => C.Refused(why)
  }

  method JudgeOne(dep: DeploymentRecord, environment: string, status: M.GatewayStatus, at: Time)
    modifies dep
    ensures dep.View() == M.Ruled(old(dep.View()), environment, status, at)
  {
    if dep.info.environment == environment && dep.status == R.RoutePending {
      if status == M.Applied {
        dep.status, dep.updatedAt := R.RouteActive, at;
      } else if status == M.NotApplied {
        dep.status, dep.updatedAt := R.RouteFailed, at;
      }
    }
  }

  /** Visits the deployments in any order. */
  method JudgeAll(m: map<string, DeploymentRecord>, environment: string, status: M.GatewayStatus, at: Time)
    requires Distinct(m)
    modifies m.Values
    ensures forall k | k in m :: m[k].View() == M.Ruled(old(m[k].View()), environment, status, at)
  {
    hide M.Ruled;
    var todo := m.Keys;
    while todo != {}
      invariant todo <= m.Keys
      invariant forall k | k in m ::
                  m[k].View() == if k in todo then old(m[k].View()) else M.Ruled(old(m[k].View()), environment, status, at)
      decreases |todo|
    {
      var k :| k in todo;
      todo := todo - {k};
      JudgeOne(m[k], environment, status, at);
    }
  }

  /** Adds the custom labels, in any order, that are not mandatory. */
  method MergeLabels(mandatory: map<string, string>, custom: map<string, string>) returns (labels: map<string, string>)
    ensures labels == custom + mandatory
  {
    labels := mandatory;
    var todo := custom.Keys;
    while todo != {}
      invariant todo <= custom.Keys && labels == (custom - todo) + mandatory
      decreases |todo|
    {
      var k :| k in todo;
      ghost var before := todo;
      todo := todo - {k};
      if k !in labels {
        labels := labels[k := custom[k]];
      }
      MergedNext(mandatory, custom, before, k);
    }
    assert custom - todo == custom;
  }

  lemma MergedNext(mandatory: map<string, string>, custom: map<string, string>, todo: set<string>, k: string)
    requires todo <= custom.Keys && k in todo
    ensures var labels := (custom - todo) + mandatory;
            (custom - (todo - {k})) + mandatory == if k in labels then labels else labels[k := custom[k]]
  {
    assert custom - (todo - {k}) == (custom - todo)[k := custom[k]];
  }

  lemma JudgedViews(t: R.Tables, m: map<string, R.Deployment>, environment: string, status: M.GatewayStatus, at: Time)
    requires m.Keys == t.deployments.Keys
    requires forall k | k in m :: m[k] == M.Ruled(t.deployments[k], environment, status, at)
    ensures t.(deployments := m) == R.Apply(t, M.VerdictEffect(environment, status, at))
  {
    if status.OtherStatus? {
      assert m == t.deployments;
    } else {
      assert m == R.Judge(t, environment, status == M.Applied, at).deployments;
    }
  }

  method NewFleet() returns (a: Table<AgentRecord>, i: Table<string>, n: Table<nat>)
    ensures fresh(a) && fresh(i) && fresh(n) && a.entries == map[] && i.entries == map[] && n.entries == map[]
  {
    a := new Table();
    i := new Table();
    n := new Table();
  }

  method NewQueue() returns (c: Table<CommandRecord>, r: Slice<C.CommandReport>)
    ensures fresh(c) && c.entries == map[] && r.Valid() && fresh(r.data) && r.View() == []
  {
    c := new Table();
    r := NewSlice();
  }

  method NewRouting() returns (d: Table<DeploymentRecord>, s: Table<DesiredStateRecord>, v: Table<nat>,
                               g: Slice<M.GatewayReport>)
    ensures fresh(d) && fresh(s) && fresh(v) && d.entries == map[] && s.entries == map[] && v.entries == map[]
    ensures g.Valid() && fresh(g.data) && g.View() == []
  {
    d := new Table();
    s := new Table();
    v := new Table();
    g := NewSlice();
  }

  class Store {
    var agents: Table<AgentRecord>
    var agentIndex: Table<string>
    var commands: Table<CommandRecord>
    var deployments: Table<DeploymentRecord>
    var commandReports: Slice<C.CommandReport>
    var desiredStates: Table<DesiredStateRecord>
    var desiredStateReports: Slice<M.GatewayReport>
    var counters: Counters

    ghost var Repr: set<object>

    /** The maps the store refers to and the arrays of its logs belong to it. */
    ghost predicate HoldersIn(objects: set<object>)
      reads this
    {
      && agents in objects && agentIndex in objects && commands in objects && deployments in objects
      && desiredStates in objects && counters.agents in objects && counters.versions in objects
      && commandReports.data in objects && desiredStateReports.data in objects
    }

    ghost predicate Valid()
      reads this, Repr, desiredStates, desiredStates.entries.Values
    {
      && this in Repr && HoldersIn(Repr)
      && commandReports.Valid() && desiredStateReports.Valid() && counters.agents != counters.versions
      && Sound(agents.entries, commands.entries, deployments.entries, desiredStates.entries, Repr)
    }

    ghost function FleetView(): F.Fleet
      reads this`agents, this`agentIndex, this`counters, agents, agentIndex, counters.agents, agents.entries.Values
    {
      F.Fleet(AgentViews(agents.entries), agentIndex.entries, counters.agents.entries)
    }

    ghost function QueueView(): C.Queue
      reads this`commands, this`commandReports, this`counters, commands, commands.entries.Values, commandReports.data
    {
      C.Queue(CommandViews(commands.entries), commandReports.View(), counters.command)
    }

    ghost function TablesView(): R.Tables
      reads this`deployments, this`desiredStates, this`counters, deployments, desiredStates, counters.versions
      reads deployments.entries.Values, desiredStates.entries.Values, Arrays(desiredStates.entries)
    {
      R.Tables(DeploymentViews(deployments.entries), StateViews(desiredStates.entries), counters.deployment, counters.route,
               counters.versions.entries)
    }

    ghost function LogView(): seq<M.GatewayReport>
      reads this`desiredStateReports, desiredStateReports.data
    {
      desiredStateReports.View()
    }

    ghost function Abs(): M.State
      reads this, agents, agentIndex, counters.agents, agents.entries.Values
      reads commands, commands.entries.Values, commandReports.data
      reads deployments, desiredStates, counters.versions
      reads deployments.entries.Values, desiredStates.entries.Values, Arrays(desiredStates.entries)
      reads desiredStateReports.data
    {
      M.State(FleetView(), QueueView(), TablesView(), LogView())
    }

    /** The store refers to the same maps and slices, except perhaps the slices
        of its logs. */
    twostate predicate SameMaps()
      reads this
    {
      && agents == old(agents) && agentIndex == old(agentIndex) && commands == old(commands)
      && deployments == old(deployments) && desiredStates == old(desiredStates)
      && counters.agents == old(counters.agents) && counters.versions == old(counters.versions)
    }

    twostate predicate SameHolders()
      reads this
    {
      SameMaps() && commandReports == old(commandReports) && desiredStateReports == old(desiredStateReports)
    }

    /** Agents and the log of gateway reports show what they showed. */
    twostate predicate RestStands()
      reads this`agents, this`agentIndex, this`counters, agents, agentIndex, counters.agents, agents.entries.Values
      reads this`desiredStateReports, desiredStateReports.data
    {
      FleetView() == old(FleetView()) && LogView() == old(LogView())
    }

    /** The store has only taken in new objects. */
    twostate predicate Grows()
      reads this
    {
      forall o | o in Repr :: o in old(Repr) || fresh(o)
    }

    /** Every desired state is an old or a new record. */
    twostate predicate StatesGrow()
      reads this, desiredStates
    {
      forall e | e in desiredStates.entries ::
        (e in old(desiredStates.entries) && desiredStates.entries[e] == old(desiredStates.entries[e]))
        || fresh(desiredStates.entries[e])
    }

    constructor ()
      ensures Valid() && fresh(Repr) && Abs() == M.INITIAL
    {
      var a, i, n := NewFleet();
      var c, r := NewQueue();
      var d, s, v, g := NewRouting();
      agents, agentIndex, commands, deployments, desiredStates := a, i, c, d, s;
      counters, commandReports, desiredStateReports := Counters(n, 0, 0, 0, v), r, g;
      Repr := {this, a, i, n, c, r.data, d, s, v, g.data};
      new;
      NoRecords();
    }

    /** A store of empty maps and logs with counters at zero. */
    ghost predicate Blank()
      reads this, agents, agentIndex, commands, deployments, desiredStates, counters.agents, counters.versions
    {
      && agents.entries == map[] && agentIndex.entries == map[] && commands.entries == map[]
      && deployments.entries == map[] && desiredStates.entries == map[]
      && counters.agents.entries == map[] && counters.versions.entries == map[] && counters.agents != counters.versions
      && counters.command == 0 && counters.deployment == 0 && counters.route == 0
      && commandReports.Valid() && desiredStateReports.Valid()
    }

    lemma EmptyIsInitial()
      requires Blank() && commandReports.View() == [] && desiredStateReports.View() == []
      requires this in Repr && HoldersIn(Repr)
      ensures Valid() && Abs() == M.INITIAL
    {
      NoRecords();
    }

    /** Makes the store refer to other maps and slices. */
    method Refer(a: Table<AgentRecord>, i: Table<string>, c: Table<CommandRecord>, d: Table<DeploymentRecord>,
                 r: Slice<C.CommandReport>, s: Table<DesiredStateRecord>, g: Slice<M.GatewayReport>, n: Counters)
      modifies this
      ensures agents == a && agentIndex == i && commands == c && deployments == d && commandReports == r
      ensures desiredStates == s && desiredStateReports == g && counters == n && Repr == old(Repr)
    {
      agents, agentIndex, commands, deployments, commandReports := a, i, c, d, r;
      desiredStates, desiredStateReports, counters := s, g, n;
    }

    /** Back to the initial state, in new maps and slices; the counters restart
        as well. */
    method Reset()
      modifies this
      ensures Valid() && fresh(Repr - {this}) && Abs() == M.INITIAL
    {
      hide Valid, Abs, AgentViews, CommandViews, DeploymentViews, StateViews, StatesValid, Arrays;
      var a, i, n := NewFleet();
      var c, r := NewQueue();
      var d, s, v, g := NewRouting();
      Repr := {this, a, i, n, c, r.data, d, s, v, g.data};
      Refer(a, i, c, d, r, s, g, Counters(n, 0, 0, 0, v));
      EmptyIsInitial();
    }

    /** Of what belonged to the store, only the objects xs may have been written. */
    twostate lemma RecordsStand(xs: set<object>)
      requires old(Valid()) && unchanged(old(Repr) - xs)
      ensures forall k | k in old(agents.entries) && old(agents.entries[k]) !in xs :: unchanged(old(agents.entries[k]))
      ensures forall k | k in old(commands.entries) && old(commands.entries[k]) !in xs ::
                unchanged(old(commands.entries[k]))
      ensures forall k | k in old(deployments.entries) && old(deployments.entries[k]) !in xs ::
                unchanged(old(deployments.entries[k]))
      ensures forall k | k in old(desiredStates.entries) && old(desiredStates.entries[k]) !in xs ::
                unchanged(old(desiredStates.entries[k]))
      ensures forall k | k in old(desiredStates.entries) && old(desiredStates.entries[k].routes.data) !in xs ::
                unchanged(old(desiredStates.entries[k].routes.data))
    {
      assert forall k | k in old(agents.entries) :: old(agents.entries[k] in agents.entries.Values);
      assert forall k | k in old(commands.entries) :: old(commands.entries[k] in commands.entries.Values);
      assert forall k | k in old(deployments.entries) :: old(deployments.entries[k] in deployments.entries.Values);
      assert forall k | k in old(desiredStates.entries) :: old(desiredStates.entries[k] in desiredStates.entries.Values);
    }

    /** Records that have not been written show what they showed, table by table. */
    twostate lemma AgentsStand(xs: set<object>)
      requires old(Valid()) && unchanged(old(Repr) - xs)
      requires forall k | k in old(agents.entries) :: old(agents.entries[k]) !in xs
      ensures AgentViews(old(agents.entries)) == old(AgentViews(agents.entries))
    {
      RecordsStand(xs);
      hide Valid;
    }

    twostate lemma CommandsStand(xs: set<object>)
      requires old(Valid()) && unchanged(old(Repr) - xs)
      requires forall k | k in old(commands.entries) :: old(commands.entries[k]) !in xs
      ensures CommandViews(old(commands.entries)) == old(CommandViews(commands.entries))
    {
      RecordsStand(xs);
      hide Valid;
    }

    twostate lemma DeploymentsStand(xs: set<object>)
      requires old(Valid()) && unchanged(old(Repr) - xs)
      requires forall k | k in old(deployments.entries) :: old(deployments.entries[k]) !in xs
      ensures DeploymentViews(old(deployments.entries)) == old(DeploymentViews(deployments.entries))
    {
      RecordsStand(xs);
      hide Valid;
    }

    twostate lemma DesiredStatesStand(xs: set<object>)
      requires old(Valid()) && unchanged(old(Repr) - xs)
      requires forall k | k in old(desiredStates.entries) ::
                 old(desiredStates.entries[k]) !in xs && old(desiredStates.entries[k].routes.data) !in xs
      ensures StatesValid(old(desiredStates.entries))
      ensures Arrays(old(desiredStates.entries)) == old(Arrays(desiredStates.entries))
      ensures StateViews(old(desiredStates.entries)) == old(StateViews(desiredStates.entries))
    {
      RecordsStand(xs);
      StatesStand(old(desiredStates.entries));
    }

    /** What has been written are at most the store's own fields, its maps and
        its logs: records show what they showed. */
    twostate lemma ViewsStand(xs: set<object>)
      requires old(Valid()) && unchanged(old(Repr) - xs)
      requires forall k | k in old(agents.entries) :: old(agents.entries[k]) !in xs
      requires forall k | k in old(commands.entries) :: old(commands.entries[k]) !in xs
      requires forall k | k in old(deployments.entries) :: old(deployments.entries[k]) !in xs
      requires forall k | k in old(desiredStates.entries) ::
                 old(desiredStates.entries[k]) !in xs && old(desiredStates.entries[k].routes.data) !in xs
      ensures AgentViews(old(agents.entries)) == old(AgentViews(agents.entries))
      ensures CommandViews(old(commands.entries)) == old(CommandViews(commands.entries))
      ensures DeploymentViews(old(deployments.entries)) == old(DeploymentViews(deployments.entries))
      ensures StatesValid(old(desiredStates.entries))
      ensures Arrays(old(desiredStates.entries)) == old(Arrays(desiredStates.entries))
      ensures StateViews(old(desiredStates.entries)) == old(StateViews(desiredStates.entries))
    {
      hide Valid, AgentViews, CommandViews, DeploymentViews, StatesValid, Arrays, StateViews;
      AgentsStand(xs);
      CommandsStand(xs);
      DeploymentsStand(xs);
      DesiredStatesStand(xs);
    }

    /** Writing agents, commands and deployments keeps the store well formed. */
    twostate lemma StillValid(xs: set<object>)
      requires old(Valid()) && unchanged(old(Repr) - xs) && this !in xs
      requires old(agents) !in xs && old(agentIndex) !in xs && old(commands) !in xs && old(deployments) !in xs
      requires old(desiredStates) !in xs
      requires forall k | k in old(desiredStates.entries) ::
                 old(desiredStates.entries[k]) !in xs && old(desiredStates.entries[k].routes.data) !in xs
      ensures Valid()
    {
      DesiredStatesStand(xs);
      RecordsStand(xs);
    }

    /** Maps and logs that have not been written hold what they held. */
    twostate lemma HoldersStand(xs: set<object>)
      requires old(Valid()) && unchanged(old(Repr) - xs) && SameHolders()
      requires old(agents) !in xs && old(agentIndex) !in xs && old(commands) !in xs && old(deployments) !in xs
      requires old(desiredStates) !in xs && old(counters.agents) !in xs && old(counters.versions) !in xs
      requires old(commandReports.data) !in xs && old(desiredStateReports.data) !in xs
      ensures agents.entries == old(agents.entries) && agentIndex.entries == old(agentIndex.entries)
      ensures commands.entries == old(commands.entries) && deployments.entries == old(deployments.entries)
      ensures desiredStates.entries == old(desiredStates.entries)
      ensures counters.agents.entries == old(counters.agents.entries)
      ensures counters.versions.entries == old(counters.versions.entries)
      ensures commandReports.View() == old(commandReports.View())
      ensures desiredStateReports.View() == old(desiredStateReports.View())
    {
    }

    /** A store none of whose objects has been written has the value it had. */
    twostate lemma Untouched()
      requires old(Valid()) && unchanged(old(Repr))
      ensures Valid() && Abs() == old(Abs())
    {
      ViewsStand({});
    }

    twostate lemma CommandShown(id: string)
      requires old(Valid()) && id in old(commands.entries) && unchanged(old(Repr) - {old(commands.entries[id])})
      ensures id in commands.entries
      ensures CommandViews(commands.entries) == old(CommandViews(commands.entries))[id := commands.entries[id].View()]
    {
      RecordsStand({old(commands.entries[id])});
    }

    /** Only the command with this id has been written. */
    twostate lemma CommandWritten(id: string)
      requires old(Valid()) && id in old(commands.entries) && unchanged(old(Repr) - {old(commands.entries[id])})
      ensures Valid() && TablesView() == old(TablesView()) && RestStands()
      ensures QueueView() == old(QueueView()).(commands := old(QueueView().commands)[id := commands.entries[id].View()])
    {
      var x := old(commands.entries[id]);
      StillValid({x});
      CommandShown(id);
      AgentsStand({x});
      DeploymentsStand({x});
      DesiredStatesStand({x});
      hide Valid, AgentViews, CommandViews, DeploymentViews, StateViews, StatesValid, Arrays;
    }

    method ClaimCommand(id: string, agentId: string, now: Time) returns (r: C.Reply<CommandRecord>)
      requires Valid()
      modifies commands.entries.Values
      ensures Valid() && TablesView() == old(TablesView()) && RestStands()
      ensures r.Accepted? ==> id in commands.entries && r.value == commands.entries[id]
      ensures (QueueView(), ReplyView(r)) == C.Claim(old(QueueView()), id, agentId, now)
    {
      hide FleetView, TablesView, Valid;
      if id !in commands.entries {
        r := C.Refused(C.NotFound);
      } else {
        var cmd := commands.entries[id];
        if cmd.status == C.Pending {
          if cmd.info.targetAgentId != agentId {
            r := C.Refused(C.BelongsTo(cmd.info.targetAgentId));
          } else {
            cmd.status, cmd.claimedBy, cmd.claimedAt := C.Claimed, agentId, Some(now);
            r := C.Accepted(cmd);
            CommandWritten(id);
          }
        } else if cmd.status == C.Claimed {
          r := if cmd.claimedBy != agentId then C.Refused(C.HeldBy(cmd.claimedBy)) else C.Accepted(cmd);
        } else {
          r := C.Refused(C.HasStatus(cmd.status));
        }
      }
    }

    twostate lemma DeploymentShown(id: string)
      requires old(Valid()) && id in old(deployments.entries) && unchanged(old(Repr) - {old(deployments.entries[id])})
      ensures id in deployments.entries
      ensures DeploymentViews(deployments.entries) ==
              old(DeploymentViews(deployments.entries))[id := deployments.entries[id].View()]
    {
      RecordsStand({old(deployments.entries[id])});
    }

    /** Only the deployment with this id has been written. */
    twostate lemma DeploymentWritten(id: string)
      requires old(Valid()) && id in old(deployments.entries) && unchanged(old(Repr) - {old(deployments.entries[id])})
      ensures Valid() && TablesView() == R.Put(old(TablesView()), id, deployments.entries[id].View())
      ensures QueueView() == old(QueueView()) && RestStands()
    {
      var x := old(deployments.entries[id]);
      StillValid({x});
      DeploymentShown(id);
      AgentsStand({x});
      CommandsStand({x});
      DesiredStatesStand({x});
      hide Valid, AgentViews, CommandViews, DeploymentViews, StateViews, StatesValid, Arrays;
    }

    /** Moves a deployment on, when it exists and is in the expected status. */
    method Advance(id: string, from: R.DeploymentStatus, to: R.DeploymentStatus, at: Time)
      requires Valid()
      modifies deployments.entries.Values
      ensures Valid()
      ensures TablesView() == R.Advance(old(TablesView()), id, from, to, at)
      ensures QueueView() == old(QueueView()) && RestStands()
    {
      hide FleetView, Valid;
      assert id in deployments.entries ==> TablesView().deployments[id] == deployments.entries[id].View();
      if id in deployments.entries && deployments.entries[id].status == from {
        var dep := deployments.entries[id];
        dep.status, dep.updatedAt := to, at;
        DeploymentWritten(id);
      }
    }

    /** The start of a deploy command moves its deployment on. */
    method StartDeployment(info: C.CommandInfo, now: Time)
      requires Valid()
      modifies deployments.entries.Values
      ensures Valid() && QueueView() == old(QueueView()) && RestStands()
      ensures TablesView() == R.Apply(old(TablesView()), M.StartOf(info, now))
    {
      if info.kind == C.DeployApplication && info.deploymentId != "" {
        Advance(info.deploymentId, R.CommandCreated, R.Deploying, now);
      }
    }

    method MarkRunning(id: string, now: Time)
      requires Valid() && id in commands.entries
      modifies commands.entries[id]
      ensures Valid() && TablesView() == old(TablesView()) && RestStands() && id in old(QueueView()).commands
      ensures var c := old(QueueView()).commands[id].(status := C.Running, startedAt := Some(now));
              && commands.entries[id].View() == c
              && QueueView() == old(QueueView()).(commands := old(QueueView()).commands[id := c])
    {
      hide FleetView, TablesView, LogView;
      var cmd := commands.entries[id];
      assert QueueView().commands[id] == cmd.View();
      cmd.status, cmd.startedAt := C.Running, Some(now);
      CommandWritten(id);
      hide Valid;
    }

    method StartCommand(id: string, agentId: string, now: Time) returns (r: C.Reply<CommandRecord>)
      requires Valid()
      modifies commands.entries.Values, deployments.entries.Values
      ensures Valid() && RestStands()
      ensures r.Accepted? ==> id in commands.entries && r.value == commands.entries[id]
      ensures (QueueView(), ReplyView(r)) == C.Start(old(QueueView()), id, agentId, now)
      ensures TablesView() == R.Apply(old(TablesView()), M.StartEffect(old(QueueView()), id, agentId, now))
    {
      hide Valid, FleetView, TablesView, LogView, Sound, DeploymentViews;
      if id !in commands.entries {
        r := C.Refused(C.NotFound);
      } else {
        var cmd := commands.entries[id];
        assert QueueView().commands[id] == cmd.View();
        if cmd.status == C.Claimed {
          if cmd.claimedBy != agentId {
            r := C.Refused(C.HeldBy(cmd.claimedBy));
          } else {
            MarkRunning(id, now);
            r := C.Accepted(cmd);
            StartDeployment(cmd.info, now);
          }
        } else if cmd.status == C.Running {
          r := if cmd.claimedBy != agentId then C.Refused(C.HeldBy(cmd.claimedBy)) else C.Accepted(cmd);
        } else {
          r := C.Refused(C.HasStatus(cmd.status));
        }
      }
    }

    /** A new command has been filed under its id. */
    twostate lemma CommandFiled(new cmd: CommandRecord)
      requires old(Valid()) && fresh(cmd) && unchanged(old(Repr) - {this, old(commands)}) && SameHolders()
      requires Repr == old(Repr) + {cmd} && commands.entries == old(commands.entries)[cmd.info.id := cmd]
      ensures Valid() && CommandViews(commands.entries) == old(CommandViews(commands.entries))[cmd.info.id := cmd.View()]
    {
      hide FleetView, StatesValid;
      RecordsStand({this, old(commands)});
      assert CommandViews(commands.entries) == old(CommandViews(commands.entries))[cmd.info.id := cmd.View()];
    }

    twostate lemma CommandAdded(new cmd: CommandRecord)
      requires old(Valid()) && fresh(cmd) && unchanged(old(Repr) - {this, old(commands)}) && SameHolders()
      requires Repr == old(Repr) + {cmd} && commands.entries == old(commands.entries)[cmd.info.id := cmd]
      requires counters == old(counters).(command := counters.command)
      ensures Valid() && TablesView() == old(TablesView()) && RestStands()
      ensures QueueView() ==
              C.Queue(old(QueueView()).commands[cmd.info.id := cmd.View()], old(QueueView()).reports, counters.command)
    {
      hide Sound, AgentViews;
      CommandFiled(cmd);
      ViewsStand({this, old(commands)});
      hide Valid, AgentViews, CommandViews, DeploymentViews, StateViews, StatesValid, Arrays;
    }

    /** Files a new command under the next command id. */
    method AddCommand(info: C.CommandInfo) returns (cmd: CommandRecord)
      requires Valid() && info.id == Ids.Command(counters.command + 1)
      modifies this`counters, this`Repr, commands
      ensures Valid() && fresh(cmd) && Repr == old(Repr) + {cmd}
      ensures TablesView() == old(TablesView()) && RestStands() && QueueView() == C.Add(old(QueueView()), info)
      ensures cmd.View() == C.New(info) && commands.entries == old(commands.entries)[info.id := cmd]
    {
      counters := counters.(command := counters.command + 1);
      cmd := new CommandRecord(C.New(info));
      commands.entries := commands.entries[info.id := cmd];
      Repr := Repr + {cmd};
      CommandAdded(cmd);
    }

    method CreateCommand(order: M.CommandInput, now: Time) returns (cmd: CommandRecord)
      requires Valid()
      modifies this`counters, this`Repr, commands
      ensures Valid() && fresh(cmd) && Repr == old(Repr) + {cmd}
      ensures TablesView() == old(TablesView()) && RestStands()
      ensures var info := M.OrderInfo(order, Ids.Command(old(QueueView()).commandSeq + 1), now);
              && QueueView() == C.Add(old(QueueView()), info)
              && cmd.View() == C.New(info) && commands.entries == old(commands.entries)[info.id := cmd]
    {
      var cmdId := Ids.Command(counters.command + 1);
      cmd := AddCommand(M.OrderInfo(order, cmdId, now));
    }

    // ---- agents ----

    twostate lemma AgentShown(id: string)
      requires old(Valid()) && id in old(agents.entries) && unchanged(old(Repr) - {old(agents.entries[id])})
      ensures id in agents.entries
      ensures AgentViews(agents.entries) == old(AgentViews(agents.entries))[id := agents.entries[id].View()]
    {
      RecordsStand({old(agents.entries[id])});
    }

    /** Only the agent with this id has been written. */
    twostate lemma AgentWritten(id: string)
      requires old(Valid()) && id in old(agents.entries) && unchanged(old(Repr) - {old(agents.entries[id])})
      ensures Valid() && QueueView() == old(QueueView()) && TablesView() == old(TablesView()) && LogView() == old(LogView())
      ensures FleetView() == old(FleetView()).(agents := old(FleetView().agents)[id := agents.entries[id].View()])
    {
      var x := old(agents.entries[id]);
      StillValid({x});
      AgentShown(id);
      CommandsStand({x});
      DeploymentsStand({x});
      DesiredStatesStand({x});
      hide Valid, AgentViews, CommandViews, DeploymentViews, StateViews, StatesValid, Arrays;
    }

    /** A new agent has been filed. */
    twostate lemma AgentFiled(new a: AgentRecord)
      requires old(Valid()) && fresh(a) && SameHolders()
      requires unchanged(old(Repr) - {this, old(agents), old(agentIndex), old(counters.agents)})
      requires Repr == old(Repr) + {a} && agents.entries == old(agents.entries)[a.id := a]
      ensures Valid() && AgentViews(agents.entries) == old(AgentViews(agents.entries))[a.id := a.View()]
    {
      hide FleetView;
      RecordsStand({this, old(agents), old(agentIndex), old(counters.agents)});
      assert AgentViews(agents.entries) == old(AgentViews(agents.entries))[a.id := a.View()];
    }

    twostate lemma BesideAgents()
      requires old(Valid()) && SameHolders() && counters == old(counters)
      requires unchanged(old(Repr) - {this, old(agents), old(agentIndex), old(counters.agents)})
      ensures QueueView() == old(QueueView()) && TablesView() == old(TablesView()) && LogView() == old(LogView())
    {
      hide QueueView, AgentViews, StatesValid, Distinct;
      ViewsStand({this, old(agents), old(agentIndex), old(counters.agents)});
    }

    twostate lemma AgentAdded(new a: AgentRecord)
      requires old(Valid()) && fresh(a) && SameHolders() && counters == old(counters)
      requires unchanged(old(Repr) - {this, old(agents), old(agentIndex), old(counters.agents)})
      requires Repr == old(Repr) + {a} && agents.entries == old(agents.entries)[a.id := a]
      ensures Valid() && QueueView() == old(QueueView()) && TablesView() == old(TablesView()) && LogView() == old(LogView())
      ensures FleetView() ==
              F.Fleet(old(FleetView().agents)[a.id := a.View()], agentIndex.entries, counters.agents.entries)
    {
      AgentFiled(a);
      BesideAgents();
      hide Valid, QueueView, TablesView, LogView;
    }

    method RefreshAgent(id: string, profile: F.Profile, now: Time)
      requires Valid() && id in agents.entries
      modifies agents.entries[id]
      ensures Valid() && QueueView() == old(QueueView()) && TablesView() == old(TablesView()) && LogView() == old(LogView())
      ensures id in old(FleetView().agents)
      ensures var a := old(FleetView().agents)[id].(profile := profile, status := F.ONLINE, lastSeenAt := now);
              agents.entries[id].View() == a && FleetView() == old(FleetView()).(agents := old(FleetView().agents)[id := a])
    {
      var a := agents.entries[id];
      assert FleetView().agents[id] == a.View();
      a.profile, a.status, a.lastSeenAt := profile, F.ONLINE, now;
      AgentWritten(id);
    }

    /** Files a new agent under its id and key, and records its number. */
    method FileAgent(agent: F.Agent, key: string, counter: string, n: nat) returns (a: AgentRecord)
      requires Valid()
      modifies this`Repr, agents, agentIndex, counters.agents
      ensures Valid() && Grows() && QueueView() == old(QueueView()) && TablesView() == old(TablesView())
      ensures LogView() == old(LogView()) && a.View() == agent
      ensures agents.entries == old(agents.entries)[agent.id := a]
      ensures agentIndex.entries == old(agentIndex.entries)[key := agent.id]
      ensures var f := old(FleetView());
              FleetView() == F.Fleet(f.agents[agent.id := agent], f.index[key := agent.id], f.agentSeq[counter := n])
    {
      hide QueueView, TablesView, LogView, Valid;
      var numbers := counters.agents;
      numbers.entries := numbers.entries[counter := n];
      a := new AgentRecord(agent);
      agents.entries := agents.entries[a.id := a];
      agentIndex.entries := agentIndex.entries[key := a.id];
      Repr := Repr + {a};
      AgentAdded(a);
      hide Valid;
    }

    /** Files an agent under the next number of its environment and role. */
    method AddAgent(identity: Ids.Identity, profile: F.Profile, now: Time) returns (a: AgentRecord)
      requires Valid()
      modifies this`Repr, agents, agentIndex, counters.agents
      ensures Valid() && Grows() && QueueView() == old(QueueView()) && TablesView() == old(TablesView())
      ensures LogView() == old(LogView()) && a.id in agents.entries && agents.entries[a.id] == a
      ensures agentIndex.entries == old(agentIndex.entries)[Ids.AgentKey(identity) := a.id]
      ensures var f := old(FleetView());
              var n := F.SeqOf(f, F.CounterKey(identity)) + 1;
              && a.View() == F.NewAgent(F.AgentId(identity, n), identity, profile, now)
              && FleetView() == F.Fleet(f.agents[a.id := a.View()], f.index[Ids.AgentKey(identity) := a.id],
                                        f.agentSeq[F.CounterKey(identity) := n])
    {
      hide Valid, QueueView, TablesView, LogView;
      var numbers, counter := counters.agents, Ids.EnvRoleKey(identity.environment, identity.role);
      var n := (if counter in numbers.entries then numbers.entries[counter] else 0) + 1;
      var agent := F.NewAgent(Ids.Agent(identity.environment, identity.role, n), identity, profile, now);
      a := FileAgent(agent, Ids.AgentKey(identity), counter, n);
    }

    /** Upserts an agent: a known key keeps its agent id.  The index must not
        name a missing agent under the key. */
    method RegisterAgent(identity: Ids.Identity, profile: F.Profile, now: Time) returns (a: AgentRecord)
      requires Valid()
      requires Ids.AgentKey(identity) in agentIndex.entries ==> agentIndex.entries[Ids.AgentKey(identity)] in agents.entries
      modifies this`Repr, agents, agentIndex, counters.agents, agents.entries.Values
      ensures Valid() && Grows() && QueueView() == old(QueueView()) && TablesView() == old(TablesView())
      ensures LogView() == old(LogView())
      ensures var key := Ids.AgentKey(identity);
              && key in agentIndex.entries && agentIndex.entries[key] in agents.entries
              && a == agents.entries[agentIndex.entries[key]]
      ensures (FleetView(), a.View()) == F.Register(old(FleetView()), identity, profile, now)
    {
      hide QueueView, TablesView, LogView, Sound;
      var key := Ids.AgentKey(identity);
      if key in agentIndex.entries {
        a := agents.entries[agentIndex.entries[key]];
        RefreshAgent(agentIndex.entries[key], profile, now);
      } else {
        a := AddAgent(identity, profile, now);
      }
    }

    // ---- deployments ----

    /** A new deployment has been filed under its id. */
    twostate lemma DeploymentFiled(new dep: DeploymentRecord)
      requires old(Valid()) && fresh(dep) && unchanged(old(Repr) - {this, old(deployments)}) && SameHolders()
      requires Repr == old(Repr) + {dep} && deployments.entries == old(deployments.entries)[dep.info.id := dep]
      ensures Valid()
      ensures DeploymentViews(deployments.entries) == old(DeploymentViews(deployments.entries))[dep.info.id := dep.View()]
    {
      hide FleetView, StatesValid;
      RecordsStand({this, old(deployments)});
      assert DeploymentViews(deployments.entries) == old(DeploymentViews(deployments.entries))[dep.info.id := dep.View()];
    }

    twostate lemma DeploymentAdded(new dep: DeploymentRecord)
      requires old(Valid()) && fresh(dep) && unchanged(old(Repr) - {this, old(deployments)}) && SameHolders()
      requires Repr == old(Repr) + {dep} && deployments.entries == old(deployments.entries)[dep.info.id := dep]
      requires counters == old(counters).(deployment := counters.deployment)
      ensures Valid() && QueueView() == old(QueueView()) && RestStands()
      ensures TablesView() == R.Put(old(TablesView()), dep.info.id, dep.View()).(deploymentSeq := counters.deployment)
    {
      hide Sound, CommandViews;
      DeploymentFiled(dep);
      ViewsStand({this, old(deployments)});
      hide Valid, AgentViews, CommandViews, DeploymentViews, StateViews, StatesValid, Arrays;
    }

    /** Files a deployment, as requested, under the next deployment id. */
    method AddDeployment(info: R.DeploymentInfo) returns (dep: DeploymentRecord)
      requires Valid() && info.id == Ids.Deployment(counters.deployment + 1)
      modifies this`counters, this`Repr, deployments
      ensures Valid() && fresh(dep) && Repr == old(Repr) + {dep} && dep.info == info
      ensures counters == old(counters).(deployment := counters.deployment)
      ensures QueueView() == old(QueueView()) && RestStands()
      ensures TablesView() == R.File(old(TablesView()), info)
      ensures deployments.entries == old(deployments.entries)[info.id := dep]
    {
      counters := counters.(deployment := counters.deployment + 1);
      dep := new DeploymentRecord(R.Requesting(info));
      deployments.entries := deployments.entries[info.id := dep];
      Repr := Repr + {dep};
      DeploymentAdded(dep);
    }

    /** Links a deployment to its command and advances it. */
    method LinkCommand(id: string, commandId: string, at: Time)
      requires Valid() && id in deployments.entries
      modifies deployments.entries[id]
      ensures Valid() && QueueView() == old(QueueView()) && RestStands()
      ensures id in old(TablesView()).deployments
      ensures var d := old(TablesView()).deployments[id];
              && deployments.entries[id].View() == d.(commandId := commandId, status := R.CommandCreated, updatedAt := at)
              && TablesView() == R.Put(old(TablesView()), id, deployments.entries[id].View())
    {
      hide Valid, Sound, RestStands;
      var dep := deployments.entries[id];
      assert TablesView().deployments[id] == dep.View();
      dep.commandId, dep.status, dep.updatedAt := commandId, R.CommandCreated, at;
      DeploymentWritten(id);
    }

    method FilePair(info: R.DeploymentInfo, order: C.CommandInfo) returns (dep: DeploymentRecord, cmd: CommandRecord)
      requires Valid()
      requires info.id == Ids.Deployment(counters.deployment + 1) && order.id == Ids.Command(counters.command + 1)
      modifies this`counters, this`Repr, deployments, commands
      ensures Valid() && fresh(dep) && fresh(cmd) && Repr == old(Repr) + {dep, cmd} && RestStands()
      ensures QueueView() == C.Add(old(QueueView()), order) && TablesView() == R.File(old(TablesView()), info)
      ensures info.id in deployments.entries && dep == deployments.entries[info.id] && dep.info == info
      ensures order.id in commands.entries && cmd == commands.entries[order.id] && cmd.View() == C.New(order)
    {
      hide Valid, FleetView, QueueView, TablesView, LogView, Sound, R.File, C.Add, C.New;
      dep := AddDeployment(info);
      cmd := AddCommand(order);
    }

    method AddPair(info: R.DeploymentInfo, order: C.CommandInfo) returns (dep: DeploymentRecord, cmd: CommandRecord)
      requires Valid()
      requires info.id == Ids.Deployment(counters.deployment + 1) && order.id == Ids.Command(counters.command + 1)
      modifies this`counters, this`Repr, deployments, commands
      ensures Valid() && fresh(dep) && fresh(cmd) && Repr == old(Repr) + {dep, cmd} && RestStands()
      ensures QueueView() == C.Add(old(QueueView()), order) && TablesView() == R.Create(old(TablesView()), info, order.id)
      ensures dep.View() == R.NewDeployment(info, order.id) && cmd.View() == C.New(order)
      ensures info.id in deployments.entries && dep == deployments.entries[info.id]
      ensures order.id in commands.entries && cmd == commands.entries[order.id]
    {
      hide Valid, FleetView, QueueView, TablesView, LogView, Sound, R.Create, C.Add, C.New;
      R.CreateSteps(TablesView(), info, order.id);
      dep, cmd := FilePair(info, order);
      LinkCommand(info.id, order.id, info.createdAt);
    }

    /** Creates a deployment and its deploy command, linked to each other. */
    method InitDeploy(d: M.DeployInput, now: Time) returns (dep: DeploymentRecord, cmd: CommandRecord)
      requires Valid()
      modifies this`counters, this`Repr, deployments, commands
      ensures Valid() && fresh(dep) && fresh(cmd) && Repr == old(Repr) + {dep, cmd} && RestStands()
      ensures var depId := Ids.Deployment(old(TablesView()).deploymentSeq + 1);
              var cmdId := Ids.Command(old(QueueView()).commandSeq + 1);
              var info, order := M.DeploymentInfoOf(d, depId, now), M.DeployCommandInfo(d, depId, cmdId, now);
              && QueueView() == C.Add(old(QueueView()), order) && TablesView() == R.Create(old(TablesView()), info, cmdId)
              && dep.View() == R.NewDeployment(info, cmdId) && cmd.View() == C.New(order)
              && depId in deployments.entries && dep == deployments.entries[depId]
              && cmdId in commands.entries && cmd == commands.entries[cmdId]
    {
      var depId, cmdId := Ids.Deployment(counters.deployment + 1), Ids.Command(counters.command + 1);
      var labels := MergeLabels(M.MandatoryLabels(d, depId, cmdId), d.customLabels);
      Untouched();
      dep, cmd := AddPair(M.DeploymentInfoOf(d, depId, now), M.DeployOrder(d, depId, cmdId, labels, now));
    }

    // ---- desired states ----

    twostate lemma StateStands(environment: string)
      requires old(Valid()) && environment in old(desiredStates.entries)
      requires var ds := old(desiredStates.entries[environment]);
               unchanged(old(Repr) - {this, ds, old(ds.routes.data)})
      ensures forall k | k in old(agents.entries) :: unchanged(old(agents.entries[k]))
      ensures forall k | k in old(commands.entries) :: unchanged(old(commands.entries[k]))
      ensures forall k | k in old(deployments.entries) :: unchanged(old(deployments.entries[k]))
      ensures forall k | k in old(desiredStates.entries) && k != environment ::
                unchanged(old(desiredStates.entries[k])) && unchanged(old(desiredStates.entries[k].routes.data))
    {
      var ds := old(desiredStates.entries[environment]);
      RecordsStand({this, ds, old(ds.routes.data)});
    }

    /** Only one desired state and the array behind it have been written; the
        array may have been replaced by a new one. */
    twostate predicate WroteState(environment: string)
      requires old(Valid()) && environment in old(desiredStates.entries)
      reads *
    {
      var ds := old(desiredStates.entries[environment]);
      && unchanged(old(Repr) - {this, ds, old(ds.routes.data)}) && ds.Valid()
      && (ds.routes.data == old(ds.routes.data) || fresh(ds.routes.data)) && Repr == old(Repr) + {ds.routes.data}
      && SameHolders() && counters == old(counters)
    }

    twostate lemma StatesSlide(environment: string)
      requires old(Valid()) && environment in old(desiredStates.entries) && WroteState(environment)
      ensures desiredStates.entries == old(desiredStates.entries) && StatesValid(desiredStates.entries)
      ensures forall k | k in desiredStates.entries ::
                desiredStates.entries[k] in Repr && desiredStates.entries[k].routes.data in Repr
    {
      StateStands(environment);
    }

    twostate lemma StateSlides(environment: string)
      requires old(Valid()) && environment in old(desiredStates.entries) && WroteState(environment)
      ensures Valid()
    {
      StatesSlide(environment);
      var ds := old(desiredStates.entries[environment]);
      HoldersStand({this, ds, old(ds.routes.data)});
      hide StatesValid;
    }

    twostate lemma OthersShow(environment: string)
      requires old(Valid()) && environment in old(desiredStates.entries) && WroteState(environment)
      ensures AgentViews(agents.entries) == old(AgentViews(agents.entries))
      ensures CommandViews(commands.entries) == old(CommandViews(commands.entries))
      ensures DeploymentViews(deployments.entries) == old(DeploymentViews(deployments.entries))
    {
      hide Sound;
      StateStands(environment);
    }

    twostate lemma StateShows(environment: string)
      requires old(Valid()) && environment in old(desiredStates.entries) && WroteState(environment)
      ensures AgentViews(agents.entries) == old(AgentViews(agents.entries))
      ensures CommandViews(commands.entries) == old(CommandViews(commands.entries))
      ensures DeploymentViews(deployments.entries) == old(DeploymentViews(deployments.entries))
      ensures environment in desiredStates.entries
      ensures StateViews(desiredStates.entries) ==
              old(StateViews(desiredStates.entries))[environment := desiredStates.entries[environment].View()]
    {
      hide AgentViews, CommandViews, DeploymentViews, Sound;
      OthersShow(environment);
      StateStands(environment);
    }

    twostate lemma StateWritten(environment: string)
      requires old(Valid()) && environment in old(desiredStates.entries) && WroteState(environment)
      ensures Valid() && QueueView() == old(QueueView()) && RestStands() && environment in desiredStates.entries
      ensures TablesView() == R.WithState(old(TablesView()), environment, desiredStates.entries[environment].View())
    {
      hide Valid;
      StateSlides(environment);
      StateShows(environment);
      var ds := old(desiredStates.entries[environment]);
      HoldersStand({this, ds, old(ds.routes.data)});
      hide Valid, AgentViews, CommandViews, DeploymentViews, StateViews, StatesValid, Arrays;
    }

    twostate lemma StatesFiled(environment: string, new ds: DesiredStateRecord)
      requires old(Valid()) && fresh(ds) && fresh(ds.routes.data) && ds.Valid() && SameHolders()
      requires unchanged(old(Repr) - {this, old(desiredStates)}) && Repr == old(Repr) + {ds, ds.routes.data}
      requires desiredStates.entries == old(desiredStates.entries)[environment := ds]
      ensures StatesValid(desiredStates.entries)
      ensures forall k | k in desiredStates.entries ::
                desiredStates.entries[k] in Repr && desiredStates.entries[k].routes.data in Repr
    {
      RecordsStand({this, old(desiredStates)});
      assert forall k | k in old(desiredStates.entries) ::
          old(desiredStates.entries[k]) != ds && old(desiredStates.entries[k].routes.data) != ds.routes.data;
    }

    /** A new desired state has been filed. */
    twostate lemma StateFiled(environment: string, new ds: DesiredStateRecord)
      requires old(Valid()) && fresh(ds) && fresh(ds.routes.data) && ds.Valid() && SameHolders()
      requires unchanged(old(Repr) - {this, old(desiredStates)}) && Repr == old(Repr) + {ds, ds.routes.data}
      requires desiredStates.entries == old(desiredStates.entries)[environment := ds]
      ensures Valid()
    {
      StatesFiled(environment, ds);
      hide StatesValid;
    }

    twostate lemma StateShown(environment: string, new ds: DesiredStateRecord)
      requires old(Valid()) && unchanged(old(Repr) - {this, old(desiredStates)}) && SameMaps()
      requires desiredStates.entries == old(desiredStates.entries)[environment := ds]
      ensures StateViews(desiredStates.entries) == old(StateViews(desiredStates.entries))[environment := ds.View()]
    {
      DesiredStatesStand({this, old(desiredStates)});
      hide Valid, Sound, StatesValid, Arrays;
    }

    twostate lemma StateAdded(environment: string, new ds: DesiredStateRecord)
      requires old(Valid()) && fresh(ds) && fresh(ds.routes.data) && ds.Valid() && SameHolders() && counters == old(counters)
      requires unchanged(old(Repr) - {this, old(desiredStates)}) && Repr == old(Repr) + {ds, ds.routes.data}
      requires desiredStates.entries == old(desiredStates.entries)[environment := ds]
      ensures Valid() && QueueView() == old(QueueView()) && RestStands()
      ensures TablesView() == R.WithState(old(TablesView()), environment, ds.View())
    {
      hide FleetView, LogView, StatesValid, AgentViews, CommandViews, DeploymentViews, StateViews, Arrays;
      StateFiled(environment, ds);
      StateShown(environment, ds);
      ViewsStand({this, old(desiredStates)});
    }

    method AddDesiredState(environment: string) returns (ds: DesiredStateRecord)
      requires Valid()
      modifies this`Repr, desiredStates
      ensures Valid() && Grows() && QueueView() == old(QueueView()) && RestStands() && fresh(ds) && fresh(ds.routes.data)
      ensures desiredStates.entries == old(desiredStates.entries)[environment := ds]
      ensures TablesView() == R.WithState(old(TablesView()), environment, R.Unpublished(environment))
    {
      hide FleetView, QueueView, TablesView, LogView, RestStands, Valid;
      var routes := NewSlice();
      ds := new DesiredStateRecord(0, R.GATEWAY_ROUTES, environment, routes);
      desiredStates.entries := desiredStates.entries[environment := ds];
      Repr := Repr + {ds, routes.data};
      StateAdded(environment, ds);
      hide Valid;
    }

    method GetOrCreateDesiredState(environment: string) returns (ds: DesiredStateRecord)
      requires Valid()
      modifies this`Repr, desiredStates
      ensures Valid() && Grows() && StatesGrow() && QueueView() == old(QueueView()) && RestStands()
      ensures environment in desiredStates.entries && ds == desiredStates.entries[environment]
      ensures TablesView() == R.WithState(old(TablesView()), environment, R.Get(old(TablesView()), environment))
      ensures environment in old(desiredStates.entries) ==> ds == old(desiredStates.entries[environment])
      ensures environment !in old(desiredStates.entries) ==> fresh(ds) && fresh(ds.routes.data)
    {
      hide QueueView, Valid;
      if environment in desiredStates.entries {
        ds := desiredStates.entries[environment];
        assert TablesView().states[environment := ds.View()] == TablesView().states;
      } else {
        assert environment !in TablesView().states;
        ds := AddDesiredState(environment);
        hide Valid, FleetView, QueueView, TablesView, LogView;
      }
    }

    method CountRoute()
      requires Valid()
      modifies this`counters
      ensures Valid() && QueueView() == old(QueueView()) && RestStands()
      ensures counters == old(counters).(route := counters.route) && TablesView() == R.CountRoute(old(TablesView()))
      ensures counters.route == old(TablesView()).routeSeq + 1
    {
      counters := counters.(route := counters.route + 1);
      ViewsStand({this});
    }

    /** A desired state is what its record shows. */
    lemma RecordShown(environment: string)
      requires Valid() && environment in desiredStates.entries
      ensures desiredStates.entries[environment].Valid() && desiredStates.entries[environment].routes.data in Repr
      ensures R.Get(TablesView(), environment) == desiredStates.entries[environment].View()
    {
    }

    /** Appends a route to an existing desired state. */
    method AppendRoute(environment: string, route: R.Route)
      requires Valid() && environment in desiredStates.entries
      modifies this`Repr, desiredStates.entries[environment], desiredStates.entries[environment].routes.data
      ensures Valid() && QueueView() == old(QueueView()) && RestStands() && Grows()
      ensures TablesView() ==
              R.WithRoutes(old(TablesView()), environment, R.RoutesOf(old(TablesView()), environment) + [route])
    {
      hide Valid, FleetView, QueueView, TablesView, LogView, RestStands;
      RecordShown(environment);
      var ds := desiredStates.entries[environment];
      ds.AddRoute(route);
      Repr := Repr + {ds.routes.data};
      assert Grows();
      StateWritten(environment);
    }

    method RedirectRoute(environment: string, i: nat, upstream: string, deploymentId: string)
      requires Valid() && environment in desiredStates.entries && i < desiredStates.entries[environment].routes.count
      modifies desiredStates.entries[environment].routes.data
      ensures Valid() && QueueView() == old(QueueView()) && RestStands()
      ensures var rs := R.RoutesOf(old(TablesView()), environment);
              && i < |rs|
              && TablesView() == R.WithRoutes(old(TablesView()), environment,
                                              rs[i := rs[i].(upstream := upstream, deploymentId := deploymentId)])
    {
      var ds := desiredStates.entries[environment];
      assert R.RoutesOf(TablesView(), environment) == ds.View().routes;
      ds.Redirect(i, upstream, deploymentId);
      StateWritten(environment);
    }

    /** The routes of an environment are those its record shows. */
    lemma RoutesShown(environment: string)
      requires Valid()
      ensures environment in desiredStates.entries ==>
                && desiredStates.entries[environment].Valid()
                && R.RoutesOf(TablesView(), environment) == desiredStates.entries[environment].routes.View()
      ensures environment !in desiredStates.entries ==> R.RoutesOf(TablesView(), environment) == []
    {
    }

    /** Looks for the first route of the host. */
    method FindRoute(environment: string, host: string) returns (found: bool, i: nat, routeId: string)
      requires Valid()
      ensures Valid() && TablesView() == old(TablesView()) && QueueView() == old(QueueView()) && RestStands()
      ensures i == R.HostIndex(R.RoutesOf(TablesView(), environment), host)
      ensures found <==> i < |R.RoutesOf(TablesView(), environment)|
      ensures found ==>
                && environment in desiredStates.entries && i < desiredStates.entries[environment].routes.count
                && routeId == R.RoutesOf(TablesView(), environment)[i].id
    {
      hide Valid, FleetView, QueueView, TablesView, LogView;
      RoutesShown(environment);
      if environment in desiredStates.entries {
        var ds := desiredStates.entries[environment];
        i := ds.Find(host);
        Untouched();
        found := i < ds.routes.count;
        routeId := if found then ds.routes.data[i].id else "";
      } else {
        found, i, routeId := false, 0, "";
      }
    }

    method AddRoute(environment: string, route: R.Route)
      requires Valid()
      modifies this`Repr, desiredStates, desiredStates.entries.Values, Arrays(desiredStates.entries)
      ensures Valid() && Grows() && StatesGrow() && QueueView() == old(QueueView()) && RestStands()
      ensures counters == old(counters)
      ensures deployments == old(deployments) && deployments.entries == old(deployments.entries)
      ensures TablesView() ==
              R.WithRoutes(old(TablesView()), environment, R.RoutesOf(old(TablesView()), environment) + [route])
    {
      hide Valid, FleetView, QueueView, TablesView, LogView;
      ghost var t := TablesView();
      R.StoreInitial(t, environment, R.Get(t, environment).(routes := R.RoutesOf(t, environment) + [route]));
      var ds := GetOrCreateDesiredState(environment);
      AppendRoute(environment, route);
    }

    /** A route for a host that has none yet. */
    method NewRoute(environment: string, host: string, upstream: string, deploymentId: string, healthCheckPath: string)
      returns (routeId: string)
      requires Valid() && R.HostIndex(R.RoutesOf(TablesView(), environment), host) == |R.RoutesOf(TablesView(), environment)|
      modifies this`counters, this`Repr, desiredStates, desiredStates.entries.Values, Arrays(desiredStates.entries)
      ensures Valid() && Grows() && StatesGrow() && QueueView() == old(QueueView()) && RestStands()
      ensures counters == old(counters).(route := counters.route)
      ensures deployments == old(deployments) && deployments.entries == old(deployments.entries)
      ensures (TablesView(), routeId) ==
              R.Upsert(old(TablesView()), environment, host, upstream, deploymentId, healthCheckPath)
    {
      hide Valid, FleetView, QueueView, TablesView, LogView;
      hide R.Upsert, R.HostIndex, R.WithRoutes, R.RoutesOf, R.CountRoute, Ids.Route;
      R.UpsertSteps(TablesView(), environment, host, upstream, deploymentId, healthCheckPath);
      CountRoute();
      var route := R.Route(Ids.Route(counters.route), environment, host, "/", upstream, deploymentId, healthCheckPath);
      AddRoute(environment, route);
      routeId := route.id;
    }

    /** Returns the id of the route now serving the host. */
    method UpsertRoute(environment: string, host: string, upstream: string, deploymentId: string, healthCheckPath: string)
      returns (routeId: string)
      requires Valid()
      modifies this`counters, this`Repr, desiredStates, desiredStates.entries.Values, Arrays(desiredStates.entries)
      ensures Valid() && Grows() && StatesGrow() && QueueView() == old(QueueView()) && RestStands()
      ensures counters == old(counters).(route := counters.route)
      ensures deployments == old(deployments) && deployments.entries == old(deployments.entries)
      ensures (TablesView(), routeId) ==
              R.Upsert(old(TablesView()), environment, host, upstream, deploymentId, healthCheckPath)
    {
      hide Valid, FleetView, QueueView, TablesView, LogView, R.Upsert, R.HostIndex;
      ghost var t := TablesView();
      var found, i, servedId := FindRoute(environment, host);
      if found {
        R.UpsertRedirects(t, environment, host, upstream, deploymentId, healthCheckPath);
        routeId := servedId;
        RedirectRoute(environment, i, upstream, deploymentId);
      } else {
        routeId := NewRoute(environment, host, upstream, deploymentId, healthCheckPath);
      }
    }

    method RemoveRoute(environment: string, routeId: string)
      requires Valid()
      modifies desiredStates.entries.Values, Arrays(desiredStates.entries)
      ensures Valid() && QueueView() == old(QueueView()) && RestStands()
      ensures TablesView() == R.RemoveRoute(old(TablesView()), environment, routeId)
    {
      if environment in desiredStates.entries {
        var ds := desiredStates.entries[environment];
        ds.Filter(routeId);
        StateWritten(environment);
      }
    }

    method RaiseVersion(environment: string) returns (version: nat)
      requires Valid() && environment in desiredStates.entries
      modifies desiredStates.entries[environment]
      ensures Valid() && QueueView() == old(QueueView()) && RestStands()
      ensures version == R.VersionOf(old(TablesView()), environment) + 1
      ensures TablesView() ==
              R.WithState(old(TablesView()), environment, R.Get(old(TablesView()), environment).(version := version))
    {
      var ds := desiredStates.entries[environment];
      assert TablesView().states[environment] == ds.View();
      ds.version := ds.version + 1;
      version := ds.version;
      StateWritten(environment);
    }

    method RecordVersion(environment: string, version: nat)
      requires Valid()
      modifies counters.versions
      ensures Valid() && QueueView() == old(QueueView()) && RestStands()
      ensures TablesView() == R.WithVersion(old(TablesView()), environment, version)
    {
      var versions := counters.versions;
      versions.entries := versions.entries[environment := version];
      ViewsStand({versions});
    }

    method IncrementDesiredState(environment: string)
      requires Valid()
      modifies this`Repr, desiredStates, counters.versions, desiredStates.entries.Values
      ensures Valid() && Grows() && QueueView() == old(QueueView()) && RestStands()
      ensures TablesView() == R.Increment(old(TablesView()), environment)
    {
      hide Valid, FleetView, QueueView, TablesView, LogView, R.WithState, R.WithVersion, R.Increment, R.Get;
      R.IncrementSteps(TablesView(), environment);
      var ds := GetOrCreateDesiredState(environment);
      var version := RaiseVersion(environment);
      RecordVersion(environment, version);
    }

    // ---- effects of an accepted success ----

    method MarkHealthy(id: string, ip: string, port: int, at: Time)
      requires Valid() && id in deployments.entries
      modifies deployments.entries[id]
      ensures Valid() && QueueView() == old(QueueView()) && RestStands()
      ensures id in old(TablesView()).deployments
      ensures var d := old(TablesView()).deployments[id];
              TablesView() == R.Put(old(TablesView()), id,
                                    d.(runtimePrivateIP := ip, hostPort := port, status := R.Healthy, updatedAt := at))
    {
      hide FleetView, Valid;
      var dep := deployments.entries[id];
      assert TablesView().deployments[id] == dep.View();
      dep.runtimePrivateIP, dep.hostPort, dep.status, dep.updatedAt := ip, port, R.Healthy, at;
      DeploymentWritten(id);
    }

    method MarkRoutePending(id: string, routeId: string, at: Time)
      requires Valid() && id in deployments.entries
      modifies deployments.entries[id]
      ensures Valid() && QueueView() == old(QueueView()) && RestStands()
      ensures id in old(TablesView()).deployments
      ensures var d := old(TablesView()).deployments[id];
              TablesView() == R.Put(old(TablesView()), id, d.(routeId := routeId, status := R.RoutePending, updatedAt := at))
    {
      hide Valid;
      var dep := deployments.entries[id];
      assert TablesView().deployments[id] == dep.View();
      dep.routeId, dep.status, dep.updatedAt := routeId, R.RoutePending, at;
      DeploymentWritten(id);
    }

    method PublishRoute(id: string, info: R.DeploymentInfo, upstream: string, at: Time)
      requires Valid() && id in deployments.entries
      modifies this`counters, this`Repr, desiredStates, counters.versions, deployments.entries[id]
      modifies desiredStates.entries.Values, Arrays(desiredStates.entries)
      ensures Valid() && Grows()
      ensures QueueView() == old(QueueView()) && RestStands()
      ensures id in old(TablesView()).deployments
      ensures var (t, routeId) :=
                R.Upsert(old(TablesView()), info.environment, info.host, upstream, id, info.healthCheckPath);
              var d := old(TablesView()).deployments[id];
              TablesView() ==
              R.Increment(R.Put(t, id, d.(routeId := routeId, status := R.RoutePending, updatedAt := at)), info.environment)
    {
      hide Valid, FleetView, QueueView, TablesView, LogView, Sound;
      hide R.Upsert, R.Increment, R.Put;
      R.UpsertKeepsDeployments(TablesView(), info.environment, info.host, upstream, id, info.healthCheckPath);
      var routeId := UpsertRoute(info.environment, info.host, upstream, id, info.healthCheckPath);
      assert Grows();
      MarkRoutePending(id, routeId, at);
      IncrementDesiredState(info.environment);
    }

    method DeploySucceeded(id: string, result: C.Result, at: Time)
      requires Valid()
      modifies this`counters, this`Repr, desiredStates, counters.versions, deployments.entries.Values
      modifies desiredStates.entries.Values, Arrays(desiredStates.entries)
      ensures Valid() && Grows() && QueueView() == old(QueueView()) && RestStands()
      ensures TablesView() == R.Deploy(old(TablesView()), id, result.runtimePrivateIP, result.hostPort, at)
    {
      hide FleetView, Valid, StateViews, Sound, R.Increment, R.Upsert;
      if id in deployments.entries {
        var dep := deployments.entries[id];
        assert TablesView().deployments[id] == dep.View();
        if dep.info.requiresRoute && dep.info.host != "" {
          R.DeploySteps(TablesView(), id, result.runtimePrivateIP, result.hostPort, at);
        }
        MarkHealthy(id, result.runtimePrivateIP, result.hostPort, at);
        if dep.info.requiresRoute && dep.info.host != "" {
          PublishRoute(id, dep.info, Ids.BuildUpstream(result.runtimePrivateIP, result.hostPort), at);
        }
      }
    }

    method MarkRemoved(id: string, at: Time)
      requires Valid() && id in deployments.entries
      modifies deployments.entries[id]
      ensures Valid() && QueueView() == old(QueueView()) && RestStands()
      ensures id in old(TablesView()).deployments
      ensures var d := old(TablesView()).deployments[id];
              TablesView() == R.Put(old(TablesView()), id, d.(status := R.Removed, updatedAt := at))
    {
      hide FleetView, RestStands, Valid;
      var dep := deployments.entries[id];
      assert TablesView().deployments[id] == dep.View();
      dep.status, dep.updatedAt := R.Removed, at;
      DeploymentWritten(id);
    }

    method ClearRoute(id: string)
      requires Valid() && id in deployments.entries
      modifies deployments.entries[id]
      ensures Valid() && QueueView() == old(QueueView()) && RestStands()
      ensures id in old(TablesView()).deployments
      ensures var d := old(TablesView()).deployments[id];
              TablesView() == R.Put(old(TablesView()), id, d.(routeId := ""))
    {
      var dep := deployments.entries[id];
      assert TablesView().deployments[id] == dep.View();
      dep.routeId := "";
      DeploymentWritten(id);
    }

    method StopSucceeded(id: string, at: Time)
      requires Valid()
      modifies deployments.entries.Values
      ensures Valid() && QueueView() == old(QueueView()) && RestStands()
      ensures TablesView() == R.Stop(old(TablesView()), id, at)
    {
      if id in deployments.entries {
        MarkRemoved(id, at);
      }
    }

    method WithdrawRoute(id: string, environment: string, routeId: string)
      requires Valid() && id in deployments.entries
      modifies this`counters, this`Repr, desiredStates, counters.versions, deployments.entries[id]
      modifies desiredStates.entries.Values, Arrays(desiredStates.entries)
      ensures Valid() && Grows()
      ensures QueueView() == old(QueueView()) && RestStands()
      ensures id in old(TablesView()).deployments
      ensures var d := old(TablesView()).deployments[id];
              TablesView() == R.Put(R.Increment(R.RemoveRoute(old(TablesView()), environment, routeId), environment), id,
                                    d.(routeId := ""))
    {
      hide Valid, FleetView, QueueView, TablesView, LogView;
      hide R.Increment, R.Put, R.RemoveRoute;
      R.WithdrawKeepsDeployments(TablesView(), environment, routeId);
      RemoveRoute(environment, routeId);
      IncrementDesiredState(environment);
      ClearRoute(id);
    }

    method RemoveSucceeded(id: string, at: Time)
      requires Valid()
      modifies this`counters, this`Repr, desiredStates, counters.versions, deployments.entries.Values
      modifies desiredStates.entries.Values, Arrays(desiredStates.entries)
      ensures Valid() && Grows() && QueueView() == old(QueueView()) && RestStands()
      ensures TablesView() == R.Remove(old(TablesView()), id, at)
    {
      hide FleetView, Valid;
      if id in deployments.entries {
        var dep := deployments.entries[id];
        assert TablesView().deployments[id] == dep.View();
        var routeId := dep.routeId;
        if routeId != "" {
          R.RemoveSteps(TablesView(), id, at);
        }
        MarkRemoved(id, at);
        if routeId != "" {
          WithdrawRoute(id, dep.info.environment, routeId);
        }
      }
    }

    method ApplySucceeded(kind: C.CommandKind, id: string, result: C.Result, at: Time)
      requires Valid()
      modifies this`counters, this`Repr, desiredStates, counters.versions, deployments.entries.Values
      modifies desiredStates.entries.Values, Arrays(desiredStates.entries)
      ensures Valid() && Grows() && QueueView() == old(QueueView()) && RestStands()
      ensures TablesView() == R.Apply(old(TablesView()), M.SuccessEffect(kind, id, result, at))
    {
      hide Valid, FleetView, QueueView, TablesView, LogView, R.Deploy, R.Stop, R.Remove, Arrays, StatesValid;
      if kind == C.DeployApplication {
        DeploySucceeded(id, result, at);
      } else if kind == C.StopApplication {
        StopSucceeded(id, at);
      } else if kind == C.RemoveDeployment {
        RemoveSucceeded(id, at);
      }
    }

    // ---- command reports ----

    /** A log has grown, in place or into a new array. */
    twostate lemma LogGrown(x: object)
      requires old(Valid()) && (x == old(commandReports.data) || x == old(desiredStateReports.data))
      requires unchanged(old(Repr) - {this, x}) && SameMaps() && counters == old(counters)
      requires commandReports.Valid() && desiredStateReports.Valid() && HoldersIn(Repr) && old(Repr) <= Repr
      ensures Valid() && TablesView() == old(TablesView()) && FleetView() == old(FleetView())
      ensures CommandViews(commands.entries) == old(CommandViews(commands.entries))
    {
      hide StatesValid, Distinct;
      ViewsStand({this, x});
    }

    method LogReport(report: C.CommandReport)
      requires Valid()
      modifies this`commandReports, this`Repr, commandReports.data
      ensures Valid() && Grows() && TablesView() == old(TablesView()) && RestStands()
      ensures QueueView() == old(QueueView()).(reports := old(QueueView()).reports + [report])
    {
      commandReports := Append(commandReports, report);
      Repr := Repr + {commandReports.data};
      LogGrown(old(commandReports.data));
    }

    method MarkFinished(id: string, status: C.CommandStatus, now: Time)
      requires Valid() && id in commands.entries
      modifies commands.entries[id]
      ensures Valid() && TablesView() == old(TablesView()) && RestStands() && id in old(QueueView()).commands
      ensures var c := old(QueueView()).commands[id];
              QueueView() == old(QueueView()).(
                commands := old(QueueView()).commands[id := c.(status := status, finishedAt := Some(now))])
    {
      var cmd := commands.entries[id];
      assert QueueView().commands[id] == cmd.View();
      cmd.status, cmd.finishedAt := status, Some(now);
      CommandWritten(id);
    }

    method ApplyReport(kind: C.CommandKind, id: string, input: C.ReportInput, now: Time, later: Time)
      requires Valid() && !input.status.ReportedOther?
      modifies this`counters, this`Repr, desiredStates, counters.versions, deployments.entries.Values
      modifies desiredStates.entries.Values, Arrays(desiredStates.entries)
      ensures Valid() && Grows() && QueueView() == old(QueueView()) && RestStands()
      ensures TablesView() == R.Apply(old(TablesView()), M.OutcomeEffect(kind, id, input, now, later))
    {
      if input.status == C.ReportedSucceeded {
        ApplySucceeded(kind, id, input.result, later);
      } else {
        Advance(id, R.Deploying, R.DeployFailed, now);
      }
    }

    /** Logs a report, marks its command finished and applies what it implies. */
    method Finalise(id: string, report: C.CommandReport, kind: C.CommandKind, input: C.ReportInput, now: Time, later: Time)
      requires Valid() && id in commands.entries && !input.status.ReportedOther?
      modifies this`commandReports, this`counters, this`Repr, commandReports.data, desiredStates, counters.versions
      modifies commands.entries[id], deployments.entries.Values, desiredStates.entries.Values
      modifies Arrays(desiredStates.entries)
      ensures Valid() && Grows() && RestStands() && id in old(QueueView()).commands
      ensures var q := old(QueueView());
              QueueView() == q.(commands := q.commands[id := q.commands[id].(status := C.Final(input.status),
                                                                             finishedAt := Some(now))],
                                reports := q.reports + [report])
      ensures TablesView() == R.Apply(old(TablesView()), M.OutcomeEffect(kind, report.deploymentId, input, now, later))
    {
      hide Valid, FleetView, QueueView, TablesView, LogView, R.Apply;
      LogReport(report);
      MarkFinished(id, C.Final(input.status), now);
      assert Grows();
      ApplyReport(kind, report.deploymentId, input, now, later);
    }

    /** Finalises a command and applies what its report implies. */
    method ReportCommand(id: string, input: C.ReportInput, now: Time, later: Time) returns (r: C.Reply<C.CommandReport>)
      requires Valid()
      modifies this`commandReports, this`counters, this`Repr, commandReports.data, desiredStates, counters.versions
      modifies commands.entries.Values, deployments.entries.Values, desiredStates.entries.Values
      modifies Arrays(desiredStates.entries)
      ensures Valid() && Grows() && RestStands()
      ensures (QueueView(), r) == C.Finish(old(QueueView()), id, input, now)
      ensures TablesView() == R.Apply(old(TablesView()), M.ReportEffect(old(QueueView()), id, input, now, later))
    {
      hide FleetView, TablesView, LogView;
      if id !in commands.entries {
        r := C.Refused(C.NotFound);
      } else {
        var cmd := commands.entries[id];
        assert QueueView().commands[id] == cmd.View();
        if cmd.status != C.Running && cmd.status != C.Claimed {
          r := C.Refused(C.HasStatus(cmd.status));
        } else if input.status.ReportedOther? {
          r := C.Refused(C.InvalidStatus(input.status.text));
        } else {
          var report := C.ReportOf(id, cmd.View(), input, now);
          Finalise(id, report, cmd.info.kind, input, now, later);
          r := C.Accepted(report);
        }
      }
    }

    // ---- gateway reports ----

    /** Of what belonged to the store, only deployments have been written. */
    twostate lemma DeploymentsWritten()
      requires old(Valid()) && unchanged(old(Repr) - old(deployments.entries.Values))
      ensures Valid() && QueueView() == old(QueueView()) && RestStands()
      ensures TablesView() == old(TablesView()).(deployments := DeploymentViews(deployments.entries))
    {
      var xs: set<object> := old(deployments.entries.Values);
      StillValid(xs);
      HoldersStand(xs);
      AgentsStand(xs);
      CommandsStand(xs);
      DesiredStatesStand(xs);
      hide Valid, AgentViews, CommandViews, DeploymentViews, StateViews, StatesValid, Arrays;
    }

    /** Gives every waiting deployment of the environment its verdict. */
    method JudgeDeployments(environment: string, status: M.GatewayStatus, at: Time)
      requires Valid()
      modifies deployments.entries.Values
      ensures Valid() && QueueView() == old(QueueView()) && RestStands()
      ensures TablesView() == R.Apply(old(TablesView()), M.VerdictEffect(environment, status, at))
    {
      JudgeAll(deployments.entries, environment, status, at);
      DeploymentsWritten();
      JudgedViews(old(TablesView()), DeploymentViews(deployments.entries), environment, status, at);
    }

    method LogGatewayReport(report: M.GatewayReport)
      requires Valid()
      modifies this`desiredStateReports, this`Repr, desiredStateReports.data
      ensures Valid() && Grows()
      ensures TablesView() == old(TablesView()) && QueueView() == old(QueueView()) && FleetView() == old(FleetView())
      ensures LogView() == old(LogView()) + [report]
    {
      desiredStateReports := Append(desiredStateReports, report);
      Repr := Repr + {desiredStateReports.data};
      LogGrown(old(desiredStateReports.data));
    }

    /** Logs a gateway report, and lets it decide if it is current. */
    method EnterGatewayReport(report: M.GatewayReport, current: bool, at: Time)
      requires Valid()
      modifies this`desiredStateReports, this`Repr, desiredStateReports.data, deployments.entries.Values
      ensures Valid() && Grows() && QueueView() == old(QueueView()) && FleetView() == old(FleetView())
      ensures LogView() == old(LogView()) + [report]
      ensures var effect := M.VerdictEffect(report.input.environment, report.input.status, at);
              TablesView() == if current then R.Apply(old(TablesView()), effect) else old(TablesView())
    {
      hide Valid, FleetView, QueueView, TablesView, LogView, R.Apply, M.VerdictEffect;
      LogGatewayReport(report);
      if current {
        JudgeDeployments(report.input.environment, report.input.status, at);
      }
    }

    /** Logs a gateway report; one about the current version decides. */
    method ApplyDesiredStateReport(g: M.GatewayInput, now: Time, later: Time)
      returns (report: M.GatewayReport, future: bool)
      requires Valid()
      modifies this`desiredStateReports, this`Repr, desiredStateReports.data, deployments.entries.Values
      ensures Valid() && Grows() && QueueView() == old(QueueView()) && FleetView() == old(FleetView())
      ensures report == M.LogEntry(old(TablesView()), g, now) && future == report.invalid
      ensures LogView() == old(LogView()) + [report]
      ensures TablesView() == R.Apply(old(TablesView()), M.GatewayEffect(old(TablesView()), g, later))
    {
      hide FleetView, QueueView, LogView, Valid;
      var currentVersion := if g.environment in desiredStates.entries then desiredStates.entries[g.environment].version else 0;
      assert currentVersion == R.VersionOf(TablesView(), g.environment);
      hide Valid, TablesView;
      report := M.GatewayReport(g, currentVersion, g.version < currentVersion, g.version > currentVersion, now);
      future := report.invalid;
      EnterGatewayReport(report, g.version == currentVersion, later);
    }

    /** A copy of an environment's desired state, which shares nothing with the
        store; version 0 and no routes when there is none yet. */
    method GetDesiredState(environment: string) returns (ds: DesiredStateRecord)
      requires Valid()
      ensures fresh(ds) && fresh(ds.routes.data) && ds.Valid() && ds.View() == R.Get(TablesView(), environment)
    {
      if environment in desiredStates.entries {
        assert TablesView().states[environment] == desiredStates.entries[environment].View();
        ds := desiredStates.entries[environment].Copy();
      } else {
        var routes := NewSlice();
        ds := new DesiredStateRecord(0, R.GATEWAY_ROUTES, environment, routes);
      }
    }

    // ---- persistence ----

    method SnapshotFleet() returns (a: Table<AgentRecord>, i: Table<string>, n: Table<nat>)
      requires Valid()
      ensures fresh(a) && fresh(i) && fresh(n) && fresh(a.entries.Values) && Distinct(a.entries)
      ensures F.Fleet(AgentViews(a.entries), i.entries, n.entries) == old(FleetView())
    {
      a, i, n := CopyFleet(agents, agentIndex, counters.agents);
    }

    method SnapshotQueue() returns (c: Table<CommandRecord>, r: Slice<C.CommandReport>)
      requires Valid()
      ensures fresh(c) && fresh(c.entries.Values) && Distinct(c.entries) && r.Valid() && fresh(r.data)
      ensures C.Queue(CommandViews(c.entries), r.View(), counters.command) == old(QueueView())
    {
      c, r := CopyQueue(commands, commandReports);
    }

    method SnapshotTables() returns (d: Table<DeploymentRecord>, s: Table<DesiredStateRecord>, v: Table<nat>)
      requires Valid()
      ensures fresh(d) && fresh(s) && fresh(v) && fresh(d.entries.Values) && fresh(s.entries.Values)
      ensures fresh(Arrays(s.entries)) && Distinct(d.entries) && StatesValid(s.entries)
      ensures R.Tables(DeploymentViews(d.entries), StateViews(s.entries), counters.deployment, counters.route, v.entries) ==
              old(TablesView())
    {
      hide DeploymentViews, StateViews;
      d, s := CopyRouting(deployments, desiredStates);
      v := CopyTable(counters.versions);
    }

    method SnapshotActors() returns (a: Table<AgentRecord>, i: Table<string>, n: Table<nat>, c: Table<CommandRecord>,
                                     r: Slice<C.CommandReport>)
      requires Valid()
      ensures fresh(a) && fresh(i) && fresh(n) && fresh(a.entries.Values) && Distinct(a.entries)
      ensures fresh(c) && fresh(c.entries.Values) && Distinct(c.entries) && r.Valid() && fresh(r.data)
      ensures F.Fleet(AgentViews(a.entries), i.entries, n.entries) == old(FleetView())
      ensures C.Queue(CommandViews(c.entries), r.View(), counters.command) == old(QueueView())
    {
      a, i, n := SnapshotFleet();
      Untouched();
      hide Valid, FleetView, QueueView, AgentViews, CommandViews;
      c, r := SnapshotQueue();
    }

    method SnapshotRouting() returns (d: Table<DeploymentRecord>, s: Table<DesiredStateRecord>, v: Table<nat>,
                                      g: Slice<M.GatewayReport>)
      requires Valid()
      ensures fresh(d) && fresh(s) && fresh(v) && fresh(d.entries.Values) && fresh(s.entries.Values)
      ensures fresh(Arrays(s.entries)) && Distinct(d.entries) && StatesValid(s.entries) && g.Valid() && fresh(g.data)
      ensures R.Tables(DeploymentViews(d.entries), StateViews(s.entries), counters.deployment, counters.route, v.entries) ==
              old(TablesView())
      ensures g.View() == old(LogView())
    {
      hide FleetView, QueueView, TablesView, Valid, DeploymentViews, StatesValid;
      d, s, v := SnapshotTables();
      Untouched();
      g := CopySlice(desiredStateReports);
      hide Valid, DeploymentViews, StateViews, Arrays, StatesValid;
    }

    /** A copy of the whole store, which shares nothing with it. */
    method Snapshot() returns (snap: Snapshots.Snapshot)
      requires Valid()
      ensures Whole(snap) && snap.schemaVersion == 1
      ensures snap.counters.command == counters.command && snap.counters.deployment == counters.deployment
      ensures snap.counters.route == counters.route
      ensures fresh(FleetObjects(snap)) && fresh(QueueObjects(snap)) && fresh(TablesObjects(snap))
      ensures fresh(snap.desiredStateReports.data)
      ensures SavedView(snap) == old(Abs())
    {
      hide Valid, FleetView, QueueView, TablesView, LogView, SavedFleet, SavedQueue, SavedTables;
      hide StateViews, Arrays, StatesValid, FleetObjects, QueueObjects, TablesObjects;
      var a, i, n, c, r := SnapshotActors();
      Untouched();
      hide AgentViews, CommandViews, DeploymentViews;
      var d, s, v, g := SnapshotRouting();
      snap := Snapshots.Snapshot(SCHEMA_VERSION, a, i, c, d, r, s, g,
                                 SavedCounters(n, counters.command, counters.deployment, counters.route, v));
      FleetShown(snap);
      QueueShown(snap);
      TablesShown(snap);
    }

    /** The store refers to the maps and slices of the snapshot. */
    predicate RefersTo(snap: Snapshots.Snapshot)
      reads this
    {
      && agents == snap.agents && agentIndex == snap.agentIndex && commands == snap.commands
      && deployments == snap.deployments && commandReports == snap.commandReports && desiredStates == snap.desiredStates
      && desiredStateReports == snap.desiredStateReports && counters.agents == snap.counters.agents
      && counters.command == snap.counters.command && counters.deployment == snap.counters.deployment
      && counters.route == snap.counters.route && counters.versions == snap.counters.versions
    }

    lemma HeldShown(snap: Snapshots.Snapshot)
      requires RefersTo(snap)
      ensures Abs() == SavedView(snap)
    {
      FleetShown(snap);
      QueueShown(snap);
      TablesShown(snap);
    }

    lemma HeldIsValid(snap: Snapshots.Snapshot)
      requires RefersTo(snap) && Whole(snap) && Repr == {this} + Objects(snap)
      ensures Valid()
    {
      WholeIsSound(snap);
    }

    /** No store is part of a snapshot. */
    lemma Outside(snap: Snapshots.Snapshot)
      ensures this !in FleetObjects(snap) && this !in QueueObjects(snap) && this !in TablesObjects(snap)
    {
      hide FleetObjects, QueueObjects, TablesObjects;
      OutsideFleet(snap);
      OutsideQueue(snap);
      OutsideTables(snap);
    }

    lemma OutsideFleet(snap: Snapshots.Snapshot)
      ensures this !in FleetObjects(snap)
    {
    }

    lemma OutsideQueue(snap: Snapshots.Snapshot)
      ensures this !in QueueObjects(snap)
    {
    }

    lemma OutsideTables(snap: Snapshots.Snapshot)
      ensures this !in TablesObjects(snap)
    {
    }

    /** Refers to the maps and slices of a snapshot that lacks none. */
    method Adopt(snap: Snapshots.Snapshot)
      requires Complete(snap) && Whole(snap)
      modifies this
      ensures RefersTo(snap) && Whole(snap) && Repr == {this} + Objects(snap) && Objects(snap) == old(Objects(snap))
      ensures SavedView(snap) == old(SavedView(snap))
    {
      Outside(snap);
      hide Valid, Abs, Whole, SavedView, FleetObjects, QueueObjects, TablesObjects;
      Repr := {this} + Objects(snap);
      Refer(snap.agents, snap.agentIndex, snap.commands, snap.deployments, snap.commandReports, snap.desiredStates,
            snap.desiredStateReports, Counters(snap.counters.agents, snap.counters.command, snap.counters.deployment,
                                               snap.counters.route, snap.counters.versions));
      SnapshotUntouched(snap);
      FleetStands(snap);
      QueueStands(snap);
      TablesStand(snap);
    }

    /** Takes over the contents of a snapshot: the maps, arrays and records of
        the snapshot become the store's own. */
    method Restore(snap: Snapshots.Snapshot)
      requires Whole(snap)
      modifies this
      ensures Valid() && Abs() == old(SavedView(snap))
      ensures counters.command == snap.counters.command && counters.deployment == snap.counters.deployment
      ensures counters.route == snap.counters.route
      ensures forall o | o in Repr :: o == this || o in old(Objects(snap)) || fresh(o)
    {
      hide Valid, Abs, Whole, SavedView, Objects;
      var full := Fill(snap);
      Adopt(full);
      HeldShown(full);
      HeldIsValid(full);
    }
  }
}
