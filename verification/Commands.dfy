/** Commands and their reports (internal/store/commands.go and the command
    records of models.go), as pure functions on the command queue. */
module Commands {
  import opened Base
  import Ids

  datatype CommandKind =
    | DeployApplication | StopApplication | RemoveDeployment | CleanupDraining
    | OtherKind(name: string)

  datatype CommandStatus = Pending | Claimed | Running | Succeeded | Failed

  /** Raw JSON of a result, with what the deploy result decodes to; a field that
      does not decode is the empty address or port 0. */
  datatype Result = Result(text: string, runtimePrivateIP: string, hostPort: int)

  datatype ReportError = ReportError(code: string, message: string, operation: string, retryable: bool)

  /** The status string of a report: "succeeded", "failed" or anything else. */
  datatype ReportStatus = ReportedSucceeded | ReportedFailed | ReportedOther(text: string)

  /** What is fixed when a command is created. */
  datatype CommandInfo = CommandInfo(
    id: string, kind: CommandKind, deploymentId: string, targetAgentId: string,
    timeoutSeconds: int, payload: Payload, createdAt: Time)

  /** The payload of a deploy command is built from its input and the new ids;
      other payloads are opaque. */
  datatype Payload =
    | DeployPayload(application: string, environment: string, image: string, containerName: string,
                    containerInternalPort: int, healthCheckPath: string, requiresRoute: bool,
                    environmentVariables: map<string, string>, labels: map<string, string>)
    | RawPayload(text: string)

  datatype Command = Command(
    info: CommandInfo, status: CommandStatus, claimedBy: string,
    claimedAt: Option<Time>, startedAt: Option<Time>, finishedAt: Option<Time>)

  datatype CommandReport = CommandReport(
    commandId: string, deploymentId: string, agentId: string, status: ReportStatus,
    result: Result, error: Option<ReportError>, receivedAt: Time)

  datatype Queue = Queue(commands: map<string, Command>, reports: seq<CommandReport>, commandSeq: nat)

  datatype ReportInput = ReportInput(
    agentId: string, deploymentId: string, status: ReportStatus, result: Result, error: Option<ReportError>)

  /** Why a command operation is refused. */
  datatype Refusal =
    | NotFound
    | BelongsTo(agentId: string)
    | HeldBy(agentId: string)
    | HasStatus(status: CommandStatus)
    | InvalidStatus(text: string)

  datatype Reply<T> = Accepted(value: T) | Refused(why: Refusal)

  const EMPTY := Queue(map[], [], 0)

  // ---- operations ----

  function New(info: CommandInfo): Command { Command(info, Pending, "", None, None, None) }

  function Add(q: Queue, info: CommandInfo): Queue {
    q.(commandSeq := q.commandSeq + 1, commands := q.commands[info.id := New(info)])
  }

  function Claim(q: Queue, id: string, agentId: string, now: Time): (Queue, Reply<Command>) {
    if id !in q.commands then (q, Refused(NotFound))
    else
      var c := q.commands[id];
      match c.status
      case Pending =>
        if c.info.targetAgentId != agentId then (q, Refused(BelongsTo(c.info.targetAgentId)))
        else
          var c' := c.(status := Claimed, claimedBy := agentId, claimedAt := Some(now));
          (q.(commands := q.commands[id := c']), Accepted(c'))
      case Claimed =>
        (q, if c.claimedBy != agentId then Refused(HeldBy(c.claimedBy)) else Accepted(c))
      case _ => (q, Refused(HasStatus(c.status)))
  }

  predicate CanStart(q: Queue, id: string, agentId: string) {
    id in q.commands && q.commands[id].status == Claimed && q.commands[id].claimedBy == agentId
  }

  function Start(q: Queue, id: string, agentId: string, now: Time): (Queue, Reply<Command>) {
    if id !in q.commands then (q, Refused(NotFound))
    else
      var c := q.commands[id];
      match c.status
      case Claimed =>
        if c.claimedBy != agentId then (q, Refused(HeldBy(c.claimedBy)))
        else
          var c' := c.(status := Running, startedAt := Some(now));
          (q.(commands := q.commands[id := c']), Accepted(c'))
      case Running =>
        (q, if c.claimedBy != agentId then Refused(HeldBy(c.claimedBy)) else Accepted(c))
      case _ => (q, Refused(HasStatus(c.status)))
  }

  predicate Open(s: CommandStatus) { s == Running || s == Claimed }

  predicate Terminal(s: CommandStatus) { s == Succeeded || s == Failed }

  predicate CanFinish(q: Queue, id: string, status: ReportStatus) {
    id in q.commands && Open(q.commands[id].status) && !status.ReportedOther?
  }

  function Final(status: ReportStatus): CommandStatus {
    if status == ReportedSucceeded then Succeeded else Failed
  }

  /** The deployment a report is about. */
  function Target(c: Command, input: ReportInput): string {
    if input.deploymentId == "" then c.info.deploymentId else input.deploymentId
  }

  function ReportOf(id: string, c: Command, input: ReportInput, now: Time): CommandReport {
    CommandReport(id, Target(c, input), input.agentId, input.status, input.result, input.error, now)
  }

  function Finish(q: Queue, id: string, input: ReportInput, now: Time): (Queue, Reply<CommandReport>) {
    if id !in q.commands then (q, Refused(NotFound))
    else
      var c := q.commands[id];
      if !Open(c.status) then (q, Refused(HasStatus(c.status)))
      else if input.status.ReportedOther? then (q, Refused(InvalidStatus(input.status.text)))
      else
        var r := ReportOf(id, c, input, now);
        (q.(commands := q.commands[id := c.(status := Final(input.status), finishedAt := Some(now))],
            reports := q.reports + [r]),
         Accepted(r))
  }

  // ---- invariant ----

  /** Status, claimer and time stamps of a command fit together. */
  predicate LifecycleOk(c: Command) {
    && (c.status == Pending ==> c.claimedBy == "" && c.claimedAt == None)
    && (c.status != Pending ==> c.claimedBy == c.info.targetAgentId && c.claimedAt.Some?)
    && (c.status == Pending || c.status == Claimed ==> c.startedAt == None)
    && (c.status == Running ==> c.startedAt.Some?)
    && (Terminal(c.status) <==> c.finishedAt.Some?)
  }

  ghost predicate Keyed(q: Queue) {
    && q.commands.Keys == Ids.Issued(Ids.CommandKind, q.commandSeq)
    && forall k | k in q.commands :: q.commands[k].info.id == k
  }

  ghost predicate LifecyclesOk(q: Queue) { forall k | k in q.commands :: LifecycleOk(q.commands[k]) }

  /** Each log entry is about a finished command of the same outcome. */
  ghost predicate LogSound(q: Queue) {
    forall i | 0 <= i < |q.reports| ::
      && q.reports[i].commandId in q.commands
      && !q.reports[i].status.ReportedOther?
      && q.commands[q.reports[i].commandId].status == Final(q.reports[i].status)
  }

  ghost predicate LogDistinct(q: Queue) {
    forall i, j | 0 <= i < j < |q.reports| :: q.reports[i].commandId != q.reports[j].commandId
  }

  ghost predicate Logged(q: Queue, id: string) { exists i :: 0 <= i < |q.reports| && q.reports[i].commandId == id }

  ghost predicate LogComplete(q: Queue) {
    forall k | k in q.commands && Terminal(q.commands[k].status) :: Logged(q, k)
  }

  ghost predicate Inv(q: Queue) {
    Keyed(q) && LifecyclesOk(q) && LogSound(q) && LogDistinct(q) && LogComplete(q)
  }

  lemma AddComplete(q: Queue, info: CommandInfo)
    requires LogComplete(q)
    ensures LogComplete(Add(q, info))
  {
    var q' := Add(q, info);
    forall k | k in q'.commands && Terminal(q'.commands[k].status)
      ensures Logged(q', k)
    {
      assert Logged(q, k);
    }
  }

  lemma AddKeeps(q: Queue, info: CommandInfo)
    requires Inv(q) && info.id == Ids.Command(q.commandSeq + 1)
    ensures Inv(Add(q, info)) && info.id !in q.commands
  {
    hide LogComplete;
    Ids.NextIsFresh(Ids.CommandKind, q.commandSeq);
    assert Add(q, info).commands.Keys == q.commands.Keys + {info.id};
    AddComplete(q, info);
  }

  /** An open command moves on without being finished. */
  lemma MoveKeeps(q: Queue, id: string, c: Command)
    requires Inv(q) && id in q.commands && !Terminal(q.commands[id].status)
    requires !Terminal(c.status) && LifecycleOk(c) && c.info == q.commands[id].info
    ensures Inv(q.(commands := q.commands[id := c]))
  {
    var q' := q.(commands := q.commands[id := c]);
    assert q'.commands.Keys == q.commands.Keys;
    forall k | k in q'.commands && Terminal(q'.commands[k].status)
      ensures Logged(q', k)
    {
      assert Logged(q, k);
    }
  }

  lemma ClaimKeeps(q: Queue, id: string, agentId: string, now: Time)
    requires Inv(q)
    ensures Inv(Claim(q, id, agentId, now).0)
  {
    if id in q.commands && q.commands[id].status == Pending && q.commands[id].info.targetAgentId == agentId {
      MoveKeeps(q, id, q.commands[id].(status := Claimed, claimedBy := agentId, claimedAt := Some(now)));
    }
  }

  lemma StartKeeps(q: Queue, id: string, agentId: string, now: Time)
    requires Inv(q)
    ensures Inv(Start(q, id, agentId, now).0)
  {
    if CanStart(q, id, agentId) {
      MoveKeeps(q, id, q.commands[id].(status := Running, startedAt := Some(now)));
    }
  }

  lemma FinishLogged(q: Queue, q': Queue, id: string, c: Command, r: CommandReport)
    requires Inv(q) && id in q.commands && !Terminal(q.commands[id].status)
    requires q' == q.(commands := q.commands[id := c], reports := q.reports + [r])
    requires r.commandId == id && !r.status.ReportedOther? && c.status == Final(r.status)
    ensures LogSound(q') && LogDistinct(q') && LogComplete(q')
  {
    assert q'.reports[|q.reports|].commandId == id;
    forall k | k in q'.commands && Terminal(q'.commands[k].status)
      ensures Logged(q', k)
    {
      if k != id {
        assert Logged(q, k);
        var i :| 0 <= i < |q.reports| && q.reports[i].commandId == k;
        assert q'.reports[i].commandId == k;
      }
    }
  }

  lemma FinishKeeps(q: Queue, id: string, input: ReportInput, now: Time)
    requires Inv(q)
    ensures Inv(Finish(q, id, input, now).0)
  {
    if CanFinish(q, id, input.status) {
      var q' := Finish(q, id, input, now).0;
      FinishLogged(q, q', id, q'.commands[id], ReportOf(id, q.commands[id], input, now));
      assert q'.commands.Keys == q.commands.Keys;
    }
  }
}
