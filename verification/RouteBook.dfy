/** The published routes as a last-writer map: for each environment one entry
    per host, written by publications and erased by withdrawals.  The route
    lists of the store show exactly this map; their order, the upsert scan and
    the in-place filter never show. */
module RouteBook {
  import opened Base
  import opened Machine
  import Ids
  import R = Routing
  import RI = RoutingInvariant
  import MI = MachineInvariant

  datatype Entry = Entry(id: string, owner: string, upstream: string)

  datatype Shelf = Shelf(version: nat, entries: map<string, Entry>)

  /** shelves by environment, route ids held by deployments, ids issued */
  datatype Book = Book(shelves: map<string, Shelf>, held: map<string, string>, issued: nat)

  const EMPTY_BOOK := Book(map[], map[], 0)

  datatype Event =
    | Quiet
    | Publish(dep: string, environment: string, host: string, upstream: string)
    | Withdraw(dep: string, environment: string)
    | Clear

  function ShelfOf(b: Book, environment: string): Shelf {
    if environment in b.shelves then b.shelves[environment] else Shelf(0, map[])
  }

  /** The last writer of a host wins; the entry keeps its id. */
  function Write(b: Book, dep: string, environment: string, host: string, upstream: string): Book {
    var s := ShelfOf(b, environment);
    var n := if host in s.entries then b.issued else b.issued + 1;
    var id := if host in s.entries then s.entries[host].id else Ids.Route(n);
    Book(b.shelves[environment := Shelf(s.version + 1, s.entries[host := Entry(id, dep, upstream)])],
         b.held[dep := id], n)
  }

  /** Erases the entry whose id the deployment holds, if it is still there. */
  function Erase(b: Book, dep: string, environment: string): Book {
    if dep !in b.held then b
    else
      var s := ShelfOf(b, environment);
      var kept := map h | h in s.entries && s.entries[h].id != b.held[dep] :: s.entries[h];
      Book(b.shelves[environment := Shelf(s.version + 1, kept)], b.held - {dep}, b.issued)
  }

  function BookStep(b: Book, ev: Event): Book {
    match ev
    case Quiet => b
    case Publish(dep, environment, host, upstream) => Write(b, dep, environment, host, upstream)
    case Withdraw(dep, environment) => Erase(b, dep, environment)
    case Clear => EMPTY_BOOK
  }

  function Fold(b: Book, evs: seq<Event>): Book {
    if evs == [] then b else BookStep(Fold(b, evs[..|evs| - 1]), evs[|evs| - 1])
  }

  /** What an effect means for the book: which deployment an accepted success
      report addresses, and that deployment's fixed place. */
  function EventFor(t: R.Tables, e: R.Effect): Event {
    match e
    case Deploys(dep, ip, port, _) =>
      if dep in t.deployments && R.Routed(t.deployments[dep])
      then Publish(dep, t.deployments[dep].info.environment, t.deployments[dep].info.host, Ids.BuildUpstream(ip, port))
      else Quiet
    case Removes(dep, _) =>
      if dep in t.deployments then Withdraw(dep, t.deployments[dep].info.environment) else Quiet
    case _ => Quiet
  }

  function EventOf(s: State, op: Op): Event {
    if op.Reset? then Clear else EventFor(s.tables, EffectOf(s, op))
  }

  function Events(s: State, ops: seq<Op>): seq<Event> {
    if ops == [] then []
    else
      var front := ops[..|ops| - 1];
      Events(s, front) + [EventOf(Run(s, front), ops[|ops| - 1])]
  }

  // ---- what the store shows ----

  function Hosts(rs: seq<R.Route>): set<string> { set r | r in rs :: r.host }

  function EntryOf(r: R.Route): Entry { Entry(r.id, r.deploymentId, r.upstream) }

  function Listed(rs: seq<R.Route>): map<string, Entry> {
    map h | h in Hosts(rs) ::
      var i := R.HostIndex(rs, h);
      if i < |rs| then EntryOf(rs[i]) else Entry("", "", "")
  }

  function Shelves(t: R.Tables): map<string, Shelf> {
    map e | e in t.states :: Shelf(t.states[e].version, Listed(t.states[e].routes))
  }

  function Held(t: R.Tables): map<string, string> {
    map k | k in t.deployments && t.deployments[k].routeId != "" :: t.deployments[k].routeId
  }

  function View(t: R.Tables): Book { Book(Shelves(t), Held(t), t.routeSeq) }

  // ---- refinement ----

  lemma EntryShown(rs: seq<R.Route>, r: R.Route)
    requires RI.UniqueHosts(rs) && r in rs
    ensures r.host in Listed(rs) && Listed(rs)[r.host] == EntryOf(r)
  {
    var i := R.HostIndex(rs, r.host);
    var j :| 0 <= j < |rs| && rs[j] == r;
    assert i == j;
  }

  /** Two lists of distinct hosts that agree on their routes show the same map
      entries, and one host can be described by its route alone. */
  lemma EntriesWhere(rs: seq<R.Route>, m: map<string, Entry>)
    requires RI.UniqueHosts(rs)
    requires forall r | r in rs :: r.host in m && m[r.host] == EntryOf(r)
    requires forall h | h in m :: RI.Serves(rs, h)
    ensures Listed(rs) == m
  {
    forall h | h in m
      ensures h in Listed(rs) && Listed(rs)[h] == m[h]
    {
      var r :| r in rs && r.host == h;
      EntryShown(rs, r);
    }
    forall h | h in Listed(rs)
      ensures h in m
    {
      var r :| r in rs && r.host == h;
    }
  }

  lemma EntryFrom(rs: seq<R.Route>, h: string) returns (r: R.Route)
    requires RI.UniqueHosts(rs) && h in Listed(rs)
    ensures r in rs && r.host == h && Listed(rs)[h] == EntryOf(r)
  {
    r :| r in rs && r.host == h;
    EntryShown(rs, r);
  }

  lemma TakeOverShown(rs: seq<R.Route>, rs': seq<R.Route>, id: string, d: R.Deployment)
    requires RI.UniqueHosts(rs) && RI.TakesOver(rs, rs', id, d)
    ensures Listed(rs') ==
            Listed(rs)[d.info.host := Entry(d.routeId, id, Ids.BuildUpstream(d.runtimePrivateIP, d.hostPort))]
  {
    var m := Listed(rs)[d.info.host := Entry(d.routeId, id, Ids.BuildUpstream(d.runtimePrivateIP, d.hostPort))];
    forall r | r in rs'
      ensures r.host in m && m[r.host] == EntryOf(r)
    {
      if r.host != d.info.host {
        EntryShown(rs, r);
      }
    }
    forall h | h in m
      ensures RI.Serves(rs', h)
    {
      if h != d.info.host {
        var r := EntryFrom(rs, h);
        assert r in rs';
      }
    }
    EntriesWhere(rs', m);
  }

  lemma FilterShown(rs: seq<R.Route>, rs': seq<R.Route>, id: string)
    requires RI.UniqueHosts(rs) && RI.UniqueHosts(rs')
    requires forall r :: r in rs' <==> r in rs && r.id != id
    ensures Listed(rs') == map h | h in Listed(rs) && Listed(rs)[h].id != id :: Listed(rs)[h]
  {
    var m := map h | h in Listed(rs) && Listed(rs)[h].id != id :: Listed(rs)[h];
    forall r | r in rs'
      ensures r.host in m && m[r.host] == EntryOf(r)
    {
      EntryShown(rs, r);
    }
    forall h | h in m
      ensures RI.Serves(rs', h)
    {
      var r := EntryFrom(rs, h);
      assert r in rs';
    }
    EntriesWhere(rs', m);
  }

  lemma ShelfShown(t: R.Tables, e: string)
    ensures ShelfOf(View(t), e) == Shelf(R.VersionOf(t, e), Listed(R.RoutesOf(t, e)))
  {
    assert Listed([]) == map[];
  }

  /** Rewriting one environment and one deployment shows in one shelf and one
      held id. */
  lemma RewriteShown(t: R.Tables, t': R.Tables, id: string, e: string)
    requires RI.Rewrites(t, t', id, e)
    ensures Shelves(t') == Shelves(t)[e := Shelf(R.VersionOf(t, e) + 1, Listed(t'.states[e].routes))]
    ensures var h := t'.deployments[id].routeId;
            Held(t') == if h == "" then Held(t) - {id} else Held(t)[id := h]
  {
  }

  lemma PublishId(t: R.Tables, t': R.Tables, id: string, e: string)
    requires RI.UniqueHosts(R.RoutesOf(t, e)) && RI.Publishes(t, t', id, e)
    ensures var d, es := t'.deployments[id], ShelfOf(View(t), e).entries;
            if d.info.host in es
            then t'.routeSeq == t.routeSeq && es[d.info.host].id == d.routeId
            else t'.routeSeq == t.routeSeq + 1 && d.routeId == Ids.Route(t'.routeSeq)
  {
    var d, rs := t'.deployments[id], R.RoutesOf(t, e);
    ShelfShown(t, e);
    if d.info.host in Listed(rs) {
      var r := EntryFrom(rs, d.info.host);
      assert RI.Serves(rs, d.info.host);
    } else if r :| r in rs && r.host == d.info.host {
      EntryShown(rs, r);
    }
  }

  /** The outcome of a write, described by the entry it leaves. */
  ghost predicate BookWritten(b: Book, b': Book, dep: string, env: string, host: string, id: string, up: string) {
    var s := ShelfOf(b, env);
    && b'.shelves == b.shelves[env := Shelf(s.version + 1, s.entries[host := Entry(id, dep, up)])]
    && b'.held == b.held[dep := id]
    && (if host in s.entries then b'.issued == b.issued && s.entries[host].id == id
        else b'.issued == b.issued + 1 && id == Ids.Route(b'.issued))
  }

  lemma WriteIs(b: Book, b': Book, dep: string, env: string, host: string, id: string, up: string)
    requires BookWritten(b, b', dep, env, host, id, up)
    ensures b' == Write(b, dep, env, host, up)
  {
  }

  lemma PublishWrites(t: R.Tables, t': R.Tables, id: string, e: string)
    requires RI.UniqueHosts(R.RoutesOf(t, e)) && RI.Publishes(t, t', id, e)
    ensures var d := t'.deployments[id];
            BookWritten(View(t), View(t'), id, e, d.info.host, d.routeId, Ids.BuildUpstream(d.runtimePrivateIP, d.hostPort))
  {
    PublishId(t, t', id, e);
    PublishEntries(t, t', id, e);
  }

  lemma PublishShown(t: R.Tables, t': R.Tables, id: string, e: string)
    requires RI.UniqueHosts(R.RoutesOf(t, e)) && RI.Publishes(t, t', id, e)
    ensures var d := t'.deployments[id];
            View(t') == Write(View(t), id, e, d.info.host, Ids.BuildUpstream(d.runtimePrivateIP, d.hostPort))
  {
    var d := t'.deployments[id];
    PublishWrites(t, t', id, e);
    WriteIs(View(t), View(t'), id, e, d.info.host, d.routeId, Ids.BuildUpstream(d.runtimePrivateIP, d.hostPort));
  }

  lemma PublishEntries(t: R.Tables, t': R.Tables, id: string, e: string)
    requires RI.UniqueHosts(R.RoutesOf(t, e)) && RI.Publishes(t, t', id, e)
    ensures var d, s := t'.deployments[id], ShelfOf(View(t), e);
            && Shelves(t') == Shelves(t)[e := Shelf(s.version + 1, s.entries[d.info.host :=
                 Entry(d.routeId, id, Ids.BuildUpstream(d.runtimePrivateIP, d.hostPort))])]
            && Held(t') == Held(t)[id := d.routeId]
  {
    TakeOverShown(R.RoutesOf(t, e), t'.states[e].routes, id, t'.deployments[id]);
    ShelfShown(t, e);
    RewriteShown(t, t', id, e);
  }

  lemma WithdrawShown(t: R.Tables, t': R.Tables, id: string, e: string)
    requires RI.HostsUnique(t) && RI.Withdraws(t, t', id, e)
    ensures View(t') == Erase(View(t), id, e)
  {
    ShelfShown(t, e);
    RewriteShown(t, t', id, e);
    assert RI.UniqueHosts(R.RoutesOf(t, e));
    FilterShown(R.RoutesOf(t, e), t'.states[e].routes, t.deployments[id].routeId);
    assert Held(t)[id] == t.deployments[id].routeId;
  }

  /** Nothing but publications and withdrawals shows. */
  lemma QuietShown(t: R.Tables, t': R.Tables)
    requires MI.Quietly(t, t')
    ensures View(t') == View(t)
  {
    assert Held(t') == Held(t);
  }

  lemma DeployShown(t: R.Tables, id: string, ip: string, port: int, at: Time)
    requires RI.Inv(t) && id in t.deployments && R.Routed(t.deployments[id])
    ensures var info := t.deployments[id].info;
            View(R.Deploy(t, id, ip, port, at)) ==
            Write(View(t), id, info.environment, info.host, Ids.BuildUpstream(ip, port))
  {
    RI.DeployPublishes(t, id, ip, port, at);
    RI.DeployShape(t, id, ip, port, at);
    PublishShown(t, R.Deploy(t, id, ip, port, at), id, t.deployments[id].info.environment);
  }

  lemma RemoveShown(t: R.Tables, id: string, at: Time)
    requires RI.Inv(t) && id in t.deployments
    ensures View(R.Remove(t, id, at)) == Erase(View(t), id, t.deployments[id].info.environment)
  {
    hide RI.Keyed, RI.Versioned, RI.HostsUnique, RI.Owned, RI.HeldIssued, RI.HeldAgree, RI.StatusesOk;
    hide R.Remove, View, Erase;
    if t.deployments[id].routeId != "" {
      RI.RemoveWithdraws(t, id, at);
      WithdrawShown(t, R.Remove(t, id, at), id, t.deployments[id].info.environment);
    } else {
      MI.QuietStep(t, R.Removes(id, at));
      QuietShown(t, R.Remove(t, id, at));
      NothingErased(t, id);
    }
  }

  /** A deployment that holds no route id erases nothing. */
  lemma NothingErased(t: R.Tables, id: string)
    requires id in t.deployments && t.deployments[id].routeId == ""
    ensures Erase(View(t), id, t.deployments[id].info.environment) == View(t)
  {
  }

  lemma EffectShown(t: R.Tables, e: R.Effect)
    requires RI.Inv(t) && R.Enabled(t, e)
    ensures View(R.Apply(t, e)) == BookStep(View(t), EventFor(t, e))
  {
    if e.Deploys? && e.dep in t.deployments && R.Routed(t.deployments[e.dep]) {
      DeployShown(t, e.dep, e.ip, e.port, e.at);
    } else if e.Removes? && e.dep in t.deployments {
      RemoveShown(t, e.dep, e.at);
    } else {
      MI.QuietStep(t, e);
      QuietShown(t, R.Apply(t, e));
    }
  }

  lemma EmptyShown()
    ensures View(R.EMPTY) == EMPTY_BOOK
  {
    assert Shelves(R.EMPTY) == map[] && Held(R.EMPTY) == map[];
  }

  lemma BookStepShown(s: State, op: Op)
    requires MI.Inv(s)
    ensures View(Next(s, op).tables) == BookStep(View(s.tables), EventOf(s, op))
  {
    if op.Reset? {
      EmptyShown();
    } else {
      MI.StepEnabled(s, op);
      EffectShown(s.tables, EffectOf(s, op));
    }
  }

  /** Refinement: after any run the store shows the book that its history of
      accepted reports writes. */
  lemma {:induction false} RoutesRefineBook(ops: seq<Op>)
    ensures View(Run(INITIAL, ops).tables) == Fold(EMPTY_BOOK, Events(INITIAL, ops))
  {
    if ops == [] {
      EmptyShown();
    } else {
      var front := ops[..|ops| - 1];
      RoutesRefineBook(front);
      MI.InitialInv();
      MI.Reachable(INITIAL, front);
      BookStepShown(Run(INITIAL, front), ops[|ops| - 1]);
      var evs := Events(INITIAL, ops);
      assert evs[..|evs| - 1] == Events(INITIAL, front);
    }
  }
}
