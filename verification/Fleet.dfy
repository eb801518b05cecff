/** Agents, their lookup index and per-role counters (internal/store/agents.go). */
module Fleet {
  import opened Base
  import Ids

  /** The fields a registration refreshes. */
  datatype Profile = Profile(
    hostname: string, privateIP: string, publicIP: Option<string>, version: string, capabilities: string)

  datatype Agent = Agent(
    id: string, identity: Ids.Identity, profile: Profile, status: string,
    registeredAt: Time, lastSeenAt: Time)

  datatype Fleet = Fleet(agents: map<string, Agent>, index: map<string, string>, agentSeq: map<string, nat>)

  const EMPTY := Fleet(map[], map[], map[])

  const ONLINE := "online"

  function CounterKey(i: Ids.Identity): string { Ids.EnvRoleKey(i.environment, i.role) }

  function SeqOf(f: Fleet, key: string): nat { if key in f.agentSeq then f.agentSeq[key] else 0 }

  function AgentId(i: Ids.Identity, n: nat): string { Ids.Agent(i.environment, i.role, n) }

  function NewAgent(id: string, i: Ids.Identity, p: Profile, now: Time): Agent {
    Agent(id, i, p, ONLINE, now, now)
  }

  /** Upserts through the index.  The index never names a missing agent
      (Resolved below), so the last branch only makes the function total. */
  function Register(f: Fleet, i: Ids.Identity, p: Profile, now: Time): (Fleet, Agent) {
    var key := Ids.AgentKey(i);
    if key !in f.index then
      var n := SeqOf(f, CounterKey(i)) + 1;
      var a := NewAgent(AgentId(i, n), i, p, now);
      (Fleet(f.agents[a.id := a], f.index[key := a.id], f.agentSeq[CounterKey(i) := n]), a)
    else if f.index[key] in f.agents then
      var a := f.agents[f.index[key]].(profile := p, status := ONLINE, lastSeenAt := now);
      (f.(agents := f.agents[f.index[key] := a]), a)
    else
      (f, NewAgent(f.index[key], i, p, now))
  }

  // ---- invariant ----

  /** The index is a bijection from the keys in use onto the agents. */
  ghost predicate Indexed(f: Fleet) {
    && (forall k | k in f.index :: f.index[k] in f.agents && Ids.AgentKey(f.agents[f.index[k]].identity) == k)
    && (forall id | id in f.agents ::
          && f.agents[id].id == id
          && Ids.AgentKey(f.agents[id].identity) in f.index
          && f.index[Ids.AgentKey(f.agents[id].identity)] == id)
  }

  /** The index names no missing agent. */
  predicate Resolved(f: Fleet) { forall k | k in f.index :: f.index[k] in f.agents }

  lemma RegisterResolves(f: Fleet, i: Ids.Identity, p: Profile, now: Time)
    requires Resolved(f)
    ensures Resolved(Register(f, i, p, now).0)
  {
  }

  ghost predicate NumberedAs(f: Fleet, id: string, n: nat) {
    id in f.agents && 1 <= n <= SeqOf(f, CounterKey(f.agents[id].identity)) && id == AgentId(f.agents[id].identity, n)
  }

  /** Every agent id was issued by the counter of its environment and role. */
  ghost predicate Numbered(f: Fleet) {
    forall id | id in f.agents :: exists n: nat :: NumberedAs(f, id, n)
  }

  ghost predicate Inv(f: Fleet) {
    Indexed(f) && Numbered(f) && Sum(f.agentSeq) == |f.agents|
  }

  /** A new agent never gets the id of another one, even when different
      environment and role strings share a counter. */
  lemma NewIdIsFresh(f: Fleet, i: Ids.Identity)
    requires Numbered(f)
    ensures AgentId(i, SeqOf(f, CounterKey(i)) + 1) !in f.agents
  {
    var id := AgentId(i, SeqOf(f, CounterKey(i)) + 1);
    if id in f.agents {
      var n: nat :| NumberedAs(f, id, n);
      var j := f.agents[id].identity;
      Ids.AgentInjective(i.environment, i.role, SeqOf(f, CounterKey(i)) + 1, j.environment, j.role, n);
    }
  }

  /** An agent that is numbered stays numbered, whoever registers. */
  lemma StaysNumbered(f: Fleet, i: Ids.Identity, p: Profile, now: Time, id: string, n: nat)
    requires Inv(f) && NumberedAs(f, id, n)
    ensures NumberedAs(Register(f, i, p, now).0, id, n)
  {
    NewIdIsFresh(f, i);
    hide Numbered, AgentId;
  }

  lemma RegisterNumbered(f: Fleet, i: Ids.Identity, p: Profile, now: Time)
    requires Inv(f)
    ensures Numbered(Register(f, i, p, now).0)
  {
    var f' := Register(f, i, p, now).0;
    forall id | id in f'.agents
      ensures exists n: nat :: NumberedAs(f', id, n)
    {
      if id in f.agents {
        var n: nat :| NumberedAs(f, id, n);
        StaysNumbered(f, i, p, now, id, n);
      } else {
        assert NumberedAs(f', id, SeqOf(f, CounterKey(i)) + 1);
      }
    }
  }

  lemma AddIndexed(f: Fleet, f': Fleet, a: Agent, key: string)
    requires Indexed(f) && a.id !in f.agents && key !in f.index && Ids.AgentKey(a.identity) == key
    requires f'.agents == f.agents[a.id := a] && f'.index == f.index[key := a.id]
    ensures Indexed(f')
  {
    forall id | id in f'.agents
      ensures f'.agents[id].id == id
      ensures Ids.AgentKey(f'.agents[id].identity) in f'.index && f'.index[Ids.AgentKey(f'.agents[id].identity)] == id
    {
      if id != a.id {
        assert Ids.AgentKey(f.agents[id].identity) in f.index;
      }
    }
  }

  lemma RefreshIndexed(f: Fleet, f': Fleet, id: string, a: Agent)
    requires Indexed(f) && id in f.agents && a.id == id && a.identity == f.agents[id].identity
    requires f'.agents == f.agents[id := a] && f'.index == f.index
    ensures Indexed(f')
  {
  }

  lemma RegisterIndexed(f: Fleet, i: Ids.Identity, p: Profile, now: Time)
    requires Indexed(f) && Numbered(f)
    ensures Indexed(Register(f, i, p, now).0)
  {
    var key := Ids.AgentKey(i);
    if key in f.index {
      var id := f.index[key];
      RefreshIndexed(f, Register(f, i, p, now).0, id, f.agents[id].(profile := p, status := ONLINE, lastSeenAt := now));
    } else {
      var n := SeqOf(f, CounterKey(i)) + 1;
      NewIdIsFresh(f, i);
      AddIndexed(f, Register(f, i, p, now).0, NewAgent(AgentId(i, n), i, p, now), key);
    }
  }

  /** One more agent, one more number issued. */
  lemma RegisterCounts(f: Fleet, i: Ids.Identity, p: Profile, now: Time)
    requires Inv(f)
    ensures var f' := Register(f, i, p, now).0; Sum(f'.agentSeq) == |f'.agents|
  {
    var f' := Register(f, i, p, now).0;
    if Ids.AgentKey(i) in f.index {
      assert f'.agents.Keys == f.agents.Keys;
      assert |f'.agents| == |f'.agents.Keys| == |f.agents.Keys|;
    } else {
      NewIdIsFresh(f, i);
      SumUpdate(f.agentSeq, CounterKey(i), SeqOf(f, CounterKey(i)) + 1);
    }
  }

  lemma RegisterKeeps(f: Fleet, i: Ids.Identity, p: Profile, now: Time)
    requires Inv(f)
    ensures Inv(Register(f, i, p, now).0)
  {
    RegisterNumbered(f, i, p, now);
    RegisterIndexed(f, i, p, now);
    RegisterCounts(f, i, p, now);
  }

  /** Registering changes no other agent, and gives a known key its old id. */
  lemma RegisterTouchesOne(f: Fleet, i: Ids.Identity, p: Profile, now: Time)
    requires Inv(f)
    ensures var (f', a) := Register(f, i, p, now);
            && a.id in f'.agents && f'.agents[a.id] == a && f'.index[Ids.AgentKey(i)] == a.id
            && (forall id | id in f.agents && id != a.id :: id in f'.agents && f'.agents[id] == f.agents[id])
            && (a.id in f.agents <==> Ids.AgentKey(i) in f.index)
            && (Ids.AgentKey(i) in f.index ==> a.id == f.index[Ids.AgentKey(i)] && a.identity == f.agents[a.id].identity)
            && a.profile == p && a.status == ONLINE
  {
    hide Numbered;
    NewIdIsFresh(f, i);
  }

  /** The registered agent carries the identity that was asked for, for every
      earlier history, exactly when the parts hold no key separator. */
  lemma IdentityKeptIffColonFree(i: Ids.Identity, p: Profile, now: Time)
    ensures (forall f: Fleet | Inv(f) :: Register(f, i, p, now).1.identity == i) <==> Ids.ColonFree(i)
  {
    if Ids.ColonFree(i) {
      forall f: Fleet | Inv(f)
        ensures Register(f, i, p, now).1.identity == i
      {
        if Ids.AgentKey(i) in f.index {
          Ids.ColonFreeKeyInjective(i, f.agents[f.index[Ids.AgentKey(i)]].identity);
        }
      }
    } else {
      var j := Ids.Rival(i);
      EmptyInv();
      RegisterKeeps(EMPTY, j, p, now);
      var f := Register(EMPTY, j, p, now).0;
      assert Inv(f) && Register(f, i, p, now).1.identity == j;
    }
  }

  lemma EmptyInv()
    ensures Inv(EMPTY)
  {
  }
}
