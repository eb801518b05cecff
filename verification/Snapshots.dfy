/** Snapshots of the store (internal/store/snapshot.go): copies of every map,
    every slice and every record, sharing nothing with the store they were taken
    from.  Maps that a loaded snapshot lacks are null. */
module Snapshots {
  import opened Base
  import opened Collections
  import opened Records
  import F = Fleet
  import C = Commands
  import R = Routing
  import M = Machine

  datatype Counters = Counters(agents: Table<nat>, command: nat, deployment: nat, route: nat, versions: Table<nat>)

  datatype SavedCounters = SavedCounters(
    agents: Table?<nat>, command: nat, deployment: nat, route: nat, versions: Table?<nat>)

  datatype Snapshot = Snapshot(
    schemaVersion: nat,
    agents: Table?<AgentRecord>,
    agentIndex: Table?<string>,
    commands: Table?<CommandRecord>,
    deployments: Table?<DeploymentRecord>,
    commandReports: Slice<C.CommandReport>,
    desiredStates: Table?<DesiredStateRecord>,
    desiredStateReports: Slice<M.GatewayReport>,
    counters: SavedCounters)

  const SCHEMA_VERSION := 1

  ghost function FleetObjects(s: Snapshot): set<object>
    reads s.agents
  {
    Only(s.agents) + Only(s.agentIndex) + Only(s.counters.agents) + Entries(s.agents).Values
  }

  ghost function QueueObjects(s: Snapshot): set<object>
    reads s.commands
  {
    Only(s.commands) + {s.commandReports.data} + Entries(s.commands).Values
  }

  ghost function TablesObjects(s: Snapshot): set<object>
    reads s.deployments, s.desiredStates, Entries(s.desiredStates).Values
  {
    Only(s.deployments) + Only(s.desiredStates) + Only(s.counters.versions) + Entries(s.deployments).Values
    + Entries(s.desiredStates).Values + Arrays(Entries(s.desiredStates))
  }

  /** All objects of a snapshot: its maps, the arrays of its slices, and its
      records. */
  ghost function Objects(s: Snapshot): set<object>
    reads s.agents, s.commands, s.deployments, s.desiredStates, Entries(s.desiredStates).Values
  {
    FleetObjects(s) + QueueObjects(s) + TablesObjects(s) + {s.desiredStateReports.data}
  }

  /** Slices and desired states are well formed, and nothing is shared within
      the snapshot. */
  ghost predicate Whole(s: Snapshot)
    reads s.agents, s.commands, s.deployments, s.desiredStates, Entries(s.desiredStates).Values
  {
    && s.commandReports.Valid() && s.desiredStateReports.Valid()
    && (s.counters.agents == null || s.counters.agents != s.counters.versions)
    && Distinct(Entries(s.agents)) && Distinct(Entries(s.commands)) && Distinct(Entries(s.deployments))
    && StatesValid(Entries(s.desiredStates))
  }

  ghost function SavedFleet(s: Snapshot): F.Fleet
    reads FleetObjects(s)
  {
    F.Fleet(AgentViews(Entries(s.agents)), Entries(s.agentIndex), Entries(s.counters.agents))
  }

  ghost function SavedQueue(s: Snapshot): C.Queue
    reads QueueObjects(s)
  {
    C.Queue(CommandViews(Entries(s.commands)), s.commandReports.View(), s.counters.command)
  }

  ghost function SavedTables(s: Snapshot): R.Tables
    reads TablesObjects(s)
  {
    R.Tables(DeploymentViews(Entries(s.deployments)), StateViews(Entries(s.desiredStates)), s.counters.deployment,
             s.counters.route, Entries(s.counters.versions))
  }

  /** The store value a snapshot stands for. */
  ghost function SavedView(s: Snapshot): M.State
    reads Objects(s)
  {
    M.State(SavedFleet(s), SavedQueue(s), SavedTables(s), s.desiredStateReports.View())
  }

  // ---- copying, entry by entry ----

  method CopyEachAgent(m: map<string, AgentRecord>) returns (copies: map<string, AgentRecord>)
    ensures fresh(copies.Values) && Distinct(copies) && AgentViews(copies) == old(AgentViews(m))
  {
    copies := map[];
    var todo := m.Keys;
    while todo != {}
      invariant todo <= m.Keys && copies.Keys == m.Keys - todo && Distinct(copies)
      invariant forall k | k in copies :: fresh(copies[k]) && copies[k].View() == m[k].View()
      decreases |todo|
    {
      var k :| k in todo;
      todo := todo - {k};
      var a := new AgentRecord(m[k].View());
      copies := copies[k := a];
    }
  }

  method CopyAgents(t: Table<AgentRecord>) returns (copy: Table<AgentRecord>)
    ensures fresh(copy) && fresh(copy.entries.Values) && Distinct(copy.entries)
    ensures AgentViews(copy.entries) == old(AgentViews(t.entries))
  {
    copy := new Table();
    var copies := CopyEachAgent(t.entries);
    copy.entries := copies;
  }

  method CopyEachCommand(m: map<string, CommandRecord>) returns (copies: map<string, CommandRecord>)
    ensures fresh(copies.Values) && Distinct(copies) && CommandViews(copies) == old(CommandViews(m))
  {
    copies := map[];
    var todo := m.Keys;
    while todo != {}
      invariant todo <= m.Keys && copies.Keys == m.Keys - todo && Distinct(copies)
      invariant forall k | k in copies :: fresh(copies[k]) && copies[k].View() == m[k].View()
      decreases |todo|
    {
      var k :| k in todo;
      todo := todo - {k};
      var c := new CommandRecord(m[k].View());
      copies := copies[k := c];
    }
  }

  method CopyCommands(t: Table<CommandRecord>) returns (copy: Table<CommandRecord>)
    ensures fresh(copy) && fresh(copy.entries.Values) && Distinct(copy.entries)
    ensures CommandViews(copy.entries) == old(CommandViews(t.entries))
  {
    copy := new Table();
    var copies := CopyEachCommand(t.entries);
    copy.entries := copies;
  }

  method CopyEachDeployment(m: map<string, DeploymentRecord>) returns (copies: map<string, DeploymentRecord>)
    ensures fresh(copies.Values) && Distinct(copies) && DeploymentViews(copies) == old(DeploymentViews(m))
  {
    copies := map[];
    var todo := m.Keys;
    while todo != {}
      invariant todo <= m.Keys && copies.Keys == m.Keys - todo && Distinct(copies)
      invariant forall k | k in copies :: fresh(copies[k]) && copies[k].View() == m[k].View()
      decreases |todo|
    {
      var k :| k in todo;
      todo := todo - {k};
      var d := new DeploymentRecord(m[k].View());
      copies := copies[k := d];
    }
  }

  method CopyDeployments(t: Table<DeploymentRecord>) returns (copy: Table<DeploymentRecord>)
    ensures fresh(copy) && fresh(copy.entries.Values) && Distinct(copy.entries)
    ensures DeploymentViews(copy.entries) == old(DeploymentViews(t.entries))
  {
    copy := new Table();
    var copies := CopyEachDeployment(t.entries);
    copy.entries := copies;
  }

  /** One more entry, with an array of its own. */
  method CopyState(m: map<string, DesiredStateRecord>, k: string, ds: DesiredStateRecord)
    returns (more: map<string, DesiredStateRecord>)
    requires StatesValid(m) && ds.Valid()
    ensures StatesValid(more) && k in more && more == m[k := more[k]]
    ensures fresh(more[k]) && fresh(more[k].routes.data) && more[k].View() == ds.View()
  {
    var copy := ds.Copy();
    assert forall j | j in m :: m[j] != copy && m[j].routes.data != copy.routes.data;
    more := m[k := copy];
  }

  /** Every copied desired state gets an array of its own. */
  method CopyEachState(m: map<string, DesiredStateRecord>) returns (copies: map<string, DesiredStateRecord>)
    requires forall k | k in m :: m[k].Valid()
    ensures StatesValid(copies) && copies.Keys == m.Keys
    ensures forall k | k in copies ::
              fresh(copies[k]) && fresh(copies[k].routes.data) && copies[k].View() == old(StateViews(m))[k]
  {
    ghost var views := StateViews(m);
    copies := map[];
    var todo := m.Keys;
    while todo != {}
      invariant todo <= m.Keys && copies.Keys == m.Keys - todo
      invariant StatesValid(copies)
      invariant forall k | k in copies :: fresh(copies[k]) && fresh(copies[k].routes.data) && copies[k].View() == views[k]
      decreases |todo|
    {
      var k :| k in todo;
      todo := todo - {k};
      assert m[k].View() == views[k];
      copies := CopyState(copies, k, m[k]);
    }
  }

  method CopyAllStates(m: map<string, DesiredStateRecord>) returns (copies: map<string, DesiredStateRecord>)
    requires forall k | k in m :: m[k].Valid()
    ensures fresh(copies.Values) && fresh(Arrays(copies)) && StatesValid(copies)
    ensures StateViews(copies) == old(StateViews(m))
  {
    copies := CopyEachState(m);
  }

  method CopyStates(t: Table<DesiredStateRecord>) returns (copy: Table<DesiredStateRecord>)
    requires forall k | k in t.entries :: t.entries[k].Valid()
    ensures fresh(copy) && fresh(copy.entries.Values) && fresh(Arrays(copy.entries)) && StatesValid(copy.entries)
    ensures StateViews(copy.entries) == old(StateViews(t.entries))
  {
    hide StatesValid, StateViews, Arrays;
    var m := CopyAllStates(t.entries);
    label Copied:
    copy := new Table();
    copy.entries := m;
    StatesStand@Copied(m);
  }

  // ---- copying, part by part ----

  method CopyFleet(agents: Table<AgentRecord>, index: Table<string>, numbers: Table<nat>)
    returns (a: Table<AgentRecord>, i: Table<string>, n: Table<nat>)
    ensures fresh(a) && fresh(i) && fresh(n) && fresh(a.entries.Values) && Distinct(a.entries)
    ensures AgentViews(a.entries) == old(AgentViews(agents.entries))
    ensures i.entries == index.entries && n.entries == numbers.entries
  {
    i := CopyTable(index);
    n := CopyTable(numbers);
    a := CopyAgents(agents);
  }

  method CopyQueue(commands: Table<CommandRecord>, reports: Slice<C.CommandReport>)
    returns (c: Table<CommandRecord>, r: Slice<C.CommandReport>)
    requires reports.Valid()
    ensures fresh(c) && fresh(c.entries.Values) && Distinct(c.entries) && r.Valid() && fresh(r.data)
    ensures CommandViews(c.entries) == old(CommandViews(commands.entries)) && r.View() == reports.View()
  {
    r := CopySlice(reports);
    c := CopyCommands(commands);
  }

  method CopyRouting(deployments: Table<DeploymentRecord>, states: Table<DesiredStateRecord>)
    returns (d: Table<DeploymentRecord>, s: Table<DesiredStateRecord>)
    requires forall k | k in states.entries :: states.entries[k].Valid()
    ensures fresh(d) && fresh(s) && fresh(d.entries.Values) && fresh(s.entries.Values) && fresh(Arrays(s.entries))
    ensures Distinct(d.entries) && StatesValid(s.entries)
    ensures DeploymentViews(d.entries) == old(DeploymentViews(deployments.entries))
    ensures StateViews(s.entries) == old(StateViews(states.entries))
  {
    d := CopyDeployments(deployments);
    s := CopyStates(states);
  }

  // ---- complete snapshots ----

  lemma FleetShown(s: Snapshot)
    requires s.agents != null && s.agentIndex != null && s.counters.agents != null
    ensures SavedFleet(s) == F.Fleet(AgentViews(s.agents.entries), s.agentIndex.entries, s.counters.agents.entries)
    ensures forall o | o in FleetObjects(s) ::
              o == s.agents || o == s.agentIndex || o == s.counters.agents || o in s.agents.entries.Values
  {
  }

  lemma QueueShown(s: Snapshot)
    requires s.commands != null
    ensures SavedQueue(s) == C.Queue(CommandViews(s.commands.entries), s.commandReports.View(), s.counters.command)
    ensures forall o | o in QueueObjects(s) ::
              o == s.commands || o == s.commandReports.data || o in s.commands.entries.Values
  {
  }

  lemma TablesShown(s: Snapshot)
    requires s.deployments != null && s.desiredStates != null && s.counters.versions != null
    ensures SavedTables(s) == R.Tables(DeploymentViews(s.deployments.entries), StateViews(s.desiredStates.entries),
                                       s.counters.deployment, s.counters.route, s.counters.versions.entries)
    ensures forall o | o in TablesObjects(s) ::
              || o == s.deployments || o == s.desiredStates || o == s.counters.versions || o in s.deployments.entries.Values
              || o in s.desiredStates.entries.Values || o in Arrays(s.desiredStates.entries)
  {
  }

  lemma WholeIsSound(s: Snapshot)
    requires Whole(s)
    ensures Sound(Entries(s.agents), Entries(s.commands), Entries(s.deployments), Entries(s.desiredStates), Objects(s))
    ensures s.commandReports.data in Objects(s) && s.desiredStateReports.data in Objects(s)
  {
    var n := Entries(s.desiredStates);
    assert FleetObjects(s) <= Objects(s) && QueueObjects(s) <= Objects(s) && TablesObjects(s) <= Objects(s);
    assert forall k | k in n :: n[k].routes.data in Arrays(n);
  }

  /** No map is missing. */
  predicate Complete(s: Snapshot) {
    && s.agents != null && s.agentIndex != null && s.commands != null && s.deployments != null && s.desiredStates != null
    && s.counters.agents != null && s.counters.versions != null
  }

  /** Other maps with the same entries. */
  lemma MapsFilled(s: Snapshot, a: Table<AgentRecord>, i: Table<string>, c: Table<CommandRecord>,
                   d: Table<DeploymentRecord>, ds: Table<DesiredStateRecord>)
    requires a.entries == Entries(s.agents) && i.entries == Entries(s.agentIndex) && c.entries == Entries(s.commands)
    requires d.entries == Entries(s.deployments) && ds.entries == Entries(s.desiredStates)
    ensures var full := s.(agents := a, agentIndex := i, commands := c, deployments := d, desiredStates := ds);
            && SavedView(full) == SavedView(s)
            && Objects(full) <= Objects(s) + (Only(a) - Only(s.agents)) + (Only(i) - Only(s.agentIndex))
                                + (Only(c) - Only(s.commands)) + (Only(d) - Only(s.deployments))
                                + (Only(ds) - Only(s.desiredStates))
  {
  }

  lemma CountersFilled(s: Snapshot, n: Table<nat>, v: Table<nat>)
    requires n.entries == Entries(s.counters.agents) && v.entries == Entries(s.counters.versions)
    ensures var full := s.(counters := s.counters.(agents := n, versions := v));
            && SavedView(full) == SavedView(s)
            && Objects(full) <= Objects(s) + (Only(n) - Only(s.counters.agents)) + (Only(v) - Only(s.counters.versions))
  {
  }

  /** The maps of a snapshot, or new ones where it has none; the others stay. */
  method NewMaps(s: Snapshot, ghost others: set<object>)
    returns (a: Table<AgentRecord>, i: Table<string>, c: Table<CommandRecord>, d: Table<DeploymentRecord>,
             ds: Table<DesiredStateRecord>)
    ensures a.entries == Entries(s.agents) && i.entries == Entries(s.agentIndex) && c.entries == Entries(s.commands)
    ensures d.entries == Entries(s.deployments) && ds.entries == Entries(s.desiredStates)
    ensures fresh(Only(a) - Only(s.agents)) && fresh(Only(i) - Only(s.agentIndex)) && fresh(Only(c) - Only(s.commands))
    ensures fresh(Only(d) - Only(s.deployments)) && fresh(Only(ds) - Only(s.desiredStates)) && unchanged(others)
  {
    a := OrNew(s.agents);
    i := OrNew(s.agentIndex);
    c := OrNew(s.commands);
    d := OrNew(s.deployments);
    ds := OrNew(s.desiredStates);
  }

  method NewCounters(s: SavedCounters, ghost others: set<object>) returns (n: Table<nat>, v: Table<nat>)
    requires s.agents == null || s.agents != s.versions
    ensures n.entries == Entries(s.agents) && v.entries == Entries(s.versions) && n != v
    ensures fresh(Only(n) - Only(s.agents)) && fresh(Only(v) - Only(s.versions)) && unchanged(others)
  {
    n := OrNew(s.agents);
    v := OrNew(s.versions);
  }

  /** The snapshot with new maps in place of missing ones, part by part. */
  method FillMaps(s: Snapshot) returns (full: Snapshot)
    requires Whole(s)
    ensures full.agents != null && full.agentIndex != null && full.commands != null && full.deployments != null
    ensures full.desiredStates != null && full.counters == s.counters
    ensures Whole(full) && SavedView(full) == old(SavedView(s)) && fresh(Objects(full) - old(Objects(s)))
  {
    hide FleetObjects, QueueObjects, TablesObjects, SavedView, Only;
    var a, i, c, d, ds := NewMaps(s, Objects(s));
    SnapshotUntouched(s);
    full := s.(agents := a, agentIndex := i, commands := c, deployments := d, desiredStates := ds);
    MapsFilled(s, a, i, c, d, ds);
  }

  method FillCounters(s: Snapshot) returns (full: Snapshot)
    requires Whole(s)
    ensures full.counters.agents != null && full.counters.versions != null
    ensures full == s.(counters := s.counters.(agents := full.counters.agents, versions := full.counters.versions))
    ensures Whole(full) && SavedView(full) == old(SavedView(s)) && fresh(Objects(full) - old(Objects(s)))
  {
    hide FleetObjects, QueueObjects, TablesObjects, SavedView, Only;
    var n, v := NewCounters(s.counters, Objects(s));
    SnapshotUntouched(s);
    full := s.(counters := s.counters.(agents := n, versions := v));
    CountersFilled(s, n, v);
  }

  method Fill(s: Snapshot) returns (full: Snapshot)
    requires Whole(s)
    ensures Complete(full) && Whole(full) && SavedView(full) == old(SavedView(s)) && fresh(Objects(full) - old(Objects(s)))
    ensures full.counters == s.counters.(agents := full.counters.agents, versions := full.counters.versions)
  {
    hide Whole, Objects, SavedView;
    full := FillMaps(s);
    full := FillCounters(full);
  }

  // ---- standing still ----

  twostate lemma FleetStands(snap: Snapshot)
    requires unchanged(old(FleetObjects(snap)))
    ensures FleetObjects(snap) == old(FleetObjects(snap)) && SavedFleet(snap) == old(SavedFleet(snap))
  {
    assert snap.agents != null ==> snap.agents in old(FleetObjects(snap));
    assert snap.agentIndex != null ==> snap.agentIndex in old(FleetObjects(snap));
    assert snap.counters.agents != null ==> snap.counters.agents in old(FleetObjects(snap));
    var m := Entries(snap.agents);
    assert forall k | k in m :: m[k] in m.Values;
    assert AgentViews(m) == old(AgentViews(m));
  }

  twostate lemma QueueStands(snap: Snapshot)
    requires unchanged(old(QueueObjects(snap)))
    ensures QueueObjects(snap) == old(QueueObjects(snap)) && SavedQueue(snap) == old(SavedQueue(snap))
  {
    assert snap.commands != null ==> snap.commands in old(QueueObjects(snap));
    var m := Entries(snap.commands);
    assert forall k | k in m :: m[k] in m.Values;
    assert CommandViews(m) == old(CommandViews(m));
  }

  twostate lemma TablesStand(snap: Snapshot)
    requires old(Whole(snap)) && unchanged(old(TablesObjects(snap)))
    ensures TablesObjects(snap) == old(TablesObjects(snap)) && SavedTables(snap) == old(SavedTables(snap))
    ensures StatesValid(Entries(snap.desiredStates))
  {
    RoutingHoldersStand(snap);
    DeploymentsStand(snap);
    SavedStatesStand(snap);
  }

  twostate lemma SavedStatesStand(snap: Snapshot)
    requires old(Whole(snap)) && unchanged(old(TablesObjects(snap)))
    ensures var n := old(Entries(snap.desiredStates));
            StatesValid(n) && Arrays(n) == old(Arrays(n)) && StateViews(n) == old(StateViews(n))
  {
    var n := old(Entries(snap.desiredStates));
    assert forall k | k in n :: n[k] in n.Values && old(n[k].routes.data) in old(Arrays(n));
    StatesStand(n);
  }

  twostate lemma DeploymentsStand(snap: Snapshot)
    requires unchanged(old(TablesObjects(snap)))
    ensures DeploymentViews(old(Entries(snap.deployments))) == old(DeploymentViews(Entries(snap.deployments)))
  {
    var m := old(Entries(snap.deployments));
    assert forall k | k in m :: m[k] in m.Values;
  }

  twostate lemma RoutingHoldersStand(snap: Snapshot)
    requires unchanged(old(TablesObjects(snap)))
    ensures Entries(snap.deployments) == old(Entries(snap.deployments))
    ensures Entries(snap.desiredStates) == old(Entries(snap.desiredStates))
    ensures Entries(snap.counters.versions) == old(Entries(snap.counters.versions))
  {
    assert snap.deployments != null ==> snap.deployments in old(TablesObjects(snap));
    assert snap.desiredStates != null ==> snap.desiredStates in old(TablesObjects(snap));
    assert snap.counters.versions != null ==> snap.counters.versions in old(TablesObjects(snap));
  }

  twostate lemma StatesStand(m: map<string, DesiredStateRecord>)
    requires old(StatesValid(m))
    requires forall k | k in m :: unchanged(m[k]) && unchanged(m[k].routes.data)
    ensures StatesValid(m) && Arrays(m) == old(Arrays(m)) && StateViews(m) == old(StateViews(m))
  {
  }

  twostate predicate FleetUnwritten(snap: Snapshot)
    reads *
  {
    unchanged(old(FleetObjects(snap)))
  }

  twostate predicate QueueUnwritten(snap: Snapshot)
    reads *
  {
    unchanged(old(QueueObjects(snap)))
  }

  twostate predicate TablesUnwritten(snap: Snapshot)
    reads *
  {
    unchanged(old(TablesObjects(snap)))
  }

  /** A snapshot none of whose objects has been written stands as it was. */
  twostate lemma SnapshotUntouched(snap: Snapshot)
    requires old(Whole(snap)) && FleetUnwritten(snap) && QueueUnwritten(snap) && TablesUnwritten(snap)
    requires unchanged(snap.desiredStateReports.data)
    ensures Whole(snap) && SavedView(snap) == old(SavedView(snap)) && Objects(snap) == old(Objects(snap))
  {
    FleetStands(snap);
    QueueStands(snap);
    TablesStand(snap);
  }
}
