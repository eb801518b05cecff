/** The records the store shares by reference (internal/store/models.go): their
    fields are updated in place, so each is a class.  View is a record's value;
    the Views functions give the value of a whole table of records. */
module Records {
  import opened Base
  import opened Collections
  import Ids
  import F = Fleet
  import C = Commands
  import R = Routing

  class AgentRecord {
    const id: string
    const identity: Ids.Identity
    var profile: F.Profile
    var status: string
    const registeredAt: Time
    var lastSeenAt: Time

    constructor (a: F.Agent)
      ensures View() == a
    {
      id, identity, profile, status := a.id, a.identity, a.profile, a.status;
      registeredAt, lastSeenAt := a.registeredAt, a.lastSeenAt;
    }

    function View(): F.Agent
      reads this
    {
      F.Agent(id, identity, profile, status, registeredAt, lastSeenAt)
    }
  }

  class CommandRecord {
    const info: C.CommandInfo
    var status: C.CommandStatus
    var claimedBy: string
    var claimedAt: Option<Time>
    var startedAt: Option<Time>
    var finishedAt: Option<Time>

    constructor (c: C.Command)
      ensures View() == c
    {
      info, status, claimedBy := c.info, c.status, c.claimedBy;
      claimedAt, startedAt, finishedAt := c.claimedAt, c.startedAt, c.finishedAt;
    }

    function View(): C.Command
      reads this
    {
      C.Command(info, status, claimedBy, claimedAt, startedAt, finishedAt)
    }
  }

  class DeploymentRecord {
    const info: R.DeploymentInfo
    var status: R.DeploymentStatus
    var commandId: string
    var runtimePrivateIP: string
    var hostPort: int
    var routeId: string
    var updatedAt: Time

    constructor (d: R.Deployment)
      ensures View() == d
    {
      info, status, commandId := d.info, d.status, d.commandId;
      runtimePrivateIP, hostPort, routeId, updatedAt := d.runtimePrivateIP, d.hostPort, d.routeId, d.updatedAt;
    }

    function View(): R.Deployment
      reads this
    {
      R.Deployment(info, status, commandId, runtimePrivateIP, hostPort, routeId, updatedAt)
    }
  }

  /** A desired state, with the slice of its routes. */
  class DesiredStateRecord {
    var version: nat
    const kind: string
    const environment: string
    var routes: Slice<R.Route>

    predicate Valid()
      reads this
    {
      routes.Valid()
    }

    function View(): R.DesiredState
      reads this, routes.data
    {
      R.DesiredState(version, kind, environment, routes.View())
    }

    /** A desired state with the given routes. */
    constructor (version: nat, kind: string, environment: string, routes: Slice<R.Route>)
      ensures this.routes == routes && View() == R.DesiredState(version, kind, environment, routes.View())
    {
      this.version, this.kind, this.environment, this.routes := version, kind, environment, routes;
    }

    /** A copy whose routes live in an array of their own. */
    method Copy() returns (ds: DesiredStateRecord)
      requires Valid()
      ensures fresh(ds) && fresh(ds.routes.data) && ds.Valid() && ds.View() == View()
    {
      var copied := CopySlice(routes);
      ds := new DesiredStateRecord(version, kind, environment, copied);
    }

    /** The index of the first route for a host, or the number of routes. */
    method Find(host: string) returns (i: nat)
      requires Valid()
      ensures i == R.HostIndex(View().routes, host)
    {
      i := 0;
      while i < routes.count && routes.data[i].host != host
        invariant i <= routes.count
        invariant forall j | 0 <= j < i :: routes.data[j].host != host
      {
        i := i + 1;
      }
      assert forall j | 0 <= j < routes.count :: View().routes[j] == routes.data[j];
    }

    /** Adds a route at the end. */
    method AddRoute(route: R.Route)
      requires Valid()
      modifies this`routes, routes.data
      ensures Valid() && (routes.data == old(routes.data) || fresh(routes.data))
      ensures View() == old(View()).(routes := old(View()).routes + [route])
    {
      routes := Append(routes, route);
    }

    /** Points the route at index i to another owner and address. */
    method Redirect(i: nat, upstream: string, deploymentId: string)
      requires Valid() && i < routes.count
      modifies routes.data
      ensures View() == old(View()).(
                routes := old(View()).routes[i := old(routes.data[i]).(upstream := upstream, deploymentId := deploymentId)])
    {
      routes.data[i] := routes.data[i].(upstream := upstream, deploymentId := deploymentId);
    }

    /** Filters the routes in place: the kept ones slide down over the removed
        ones in the same array. */
    method Filter(routeId: string)
      requires Valid()
      modifies this`routes, routes.data
      ensures Valid() && routes.data == old(routes.data)
      ensures View() == old(View()).(routes := R.Without(old(View()).routes, routeId))
    {
      ghost var was := routes.View();
      var data, kept := routes.data, 0;
      for i := 0 to routes.count
        invariant kept <= i <= routes.count == |was| <= data.Length && routes.data == data
        invariant data[..kept] == R.Without(was[..i], routeId)
        invariant data[i..routes.count] == was[i..]
      {
        assert was[..i + 1][..i] == was[..i];
        assert data[i] == was[i];
        if data[i].id != routeId {
          data[kept] := data[i];
          kept := kept + 1;
        }
        assert data[i + 1..routes.count] == was[i + 1..];
      }
      assert was[..|was|] == was;
      routes := Slice(data, kept);
    }
  }

  // ---- tables of records ----

  /** Different keys lead to different records. */
  ghost predicate Distinct<T>(m: map<string, T>) {
    forall k, l | k in m && l in m && k != l :: m[k] != m[l]
  }

  ghost function AgentViews(m: map<string, AgentRecord>): map<string, F.Agent>
    reads m.Values
  {
    map k | k in m :: m[k].View()
  }

  ghost function CommandViews(m: map<string, CommandRecord>): map<string, C.Command>
    reads m.Values
  {
    map k | k in m :: m[k].View()
  }

  ghost function DeploymentViews(m: map<string, DeploymentRecord>): map<string, R.Deployment>
    reads m.Values
  {
    map k | k in m :: m[k].View()
  }

  /** The arrays behind the desired states. */
  ghost function Arrays(m: map<string, DesiredStateRecord>): set<object>
    reads m.Values
  {
    set k | k in m :: m[k].routes.data
  }

  /** Desired states are well formed and share no array. */
  ghost predicate StatesValid(m: map<string, DesiredStateRecord>)
    reads m.Values
  {
    && Distinct(m)
    && (forall k | k in m :: m[k].Valid())
    && (forall k, l | k in m && l in m && k != l :: m[k].routes.data != m[l].routes.data)
  }

  ghost function StateViews(m: map<string, DesiredStateRecord>): map<string, R.DesiredState>
    reads m.Values, Arrays(m)
  {
    map k | k in m :: m[k].View()
  }

  /** All records and arrays belong to repr, and no two table entries share one. */
  ghost predicate Sound(agents: map<string, AgentRecord>, commands: map<string, CommandRecord>,
                        deployments: map<string, DeploymentRecord>, states: map<string, DesiredStateRecord>,
                        repr: set<object>)
    reads states.Values
  {
    && agents.Values <= repr && commands.Values <= repr && deployments.Values <= repr && states.Values <= repr
    && (forall k | k in states :: states[k].routes.data in repr)
    && Distinct(agents) && Distinct(commands) && Distinct(deployments) && StatesValid(states)
  }

  /** Empty tables have empty values. */
  lemma NoRecords()
    ensures AgentViews(map[]) == map[] && CommandViews(map[]) == map[] && DeploymentViews(map[]) == map[]
    ensures StatesValid(map[]) && StateViews(map[]) == map[] && Arrays(map[]) == {}
  {
  }
}
