# The platform store, verified

The fake platform API keeps all its state in one in-memory store: agents, commands, deployments, one
versioned route table per environment, two report logs, and counters. Agents claim, start and report
commands; gateways fetch a route table and report back on the version they saw; test drivers create
and remove deployments. Every exported store operation holds one lock, so a history of the system is a
sequence of atomic steps in any order, from any callers.

This project models that store twice and proves the two equal, then proves what every history keeps.

* **The state machine** (`Ids`, `Fleet`, `Commands`, `Routing`, `Machine`): values and pure functions.
  `Machine.Next` gives the state after an operation, `Machine.Answer` what the caller gets, and
  `Machine.Run` folds a whole sequence of operations, refused ones and restarts included.
* **The imperative store** (`Collections`, `Records`, `Snapshots`, `Stores`, `Service`): maps are
  objects that variables may share, slices are arrays with a count, and agents, commands, deployments and
  desired states are objects updated in place. A desired state's slice of routes is appended to, scanned
  and filtered in place. Each method's contract names the value it leaves and the answer it gives in the
  state machine's terms; `Service.Serve` does so for any sequence of operations, and copies and snapshots
  are shown to share no map, no array and no record with the store.
* **What operations answer** (`Operations`, `Callers`): the outcome of every operation written out field by
  field, with its statuses, refusals, ids and time stamps, and what agents, gateways and test drivers can
  rely on over whole histories.
* **What holds** (`RoutingInvariant`, `MachineInvariant`, `History`, `Lifecycle`, `Outcomes`, `RouteIds`,
  `RouteBook`, `RouteOwnership`, `Serving`, `SharedHosts`, `Separation`, `Independence`, `Restarts`,
  `Surprises`): one inductive invariant over all tables, and results about whole histories built on it.

Time is a parameter. An operation that reads the clock twice takes two readings, `now` and `later`.
A result is given with what it decodes to. Status and command type strings are datatypes with a case
for any other string; ids, environments, roles and hosts are real strings.

## Where code and documentation differ

The model follows the code. Where that differs from the documented behaviour, the exact condition is
proved rather than the wished-for property.

* The documented diagram starts a command before it is reported; the code also accepts a report on a
  command that is only claimed (`CommandsFollowDiagramIffStarted`). A failure reported that early leaves
  the deployment in `command_created` (`EarlyFailureUnseen` is such a run). With the operations the
  handlers perform and reports that address their own deployments, an accepted failure report of a
  deploy command leaves its deployment failed exactly when the command was running and the deployment
  not removed (`FailureReportSeenIffRunning`), and this still shows at any later time
  (`FailureSeenIffStarted`).
* A deploy success is not guarded by the deployment's status, and stop and remove successes are not
  either; `DeploymentsFollowDiagramIff` says exactly when a deployment leaves the documented diagram.
  A late success takes a deployment out of `removed` (`LateSuccessRevives`, `RemovedUnlessRedeployed`);
  when reports address their own deployments, removal is final (`RemovalIsFinal`).
* Two deployments on one host share a route id, and removing the older one removes the route of the
  newer one (`RolloverStrands`). `RouteLostIffStranding` says exactly when that happens in a step,
  `PublishedUntilRemoval` and `LiveHasRouteIff` over whole histories, and `LiveRoutesPublished` shows that
  it cannot happen in an environment without shared hosts.
* A verdict on the current version reaches deployments whose route was taken over or removed since they
  were published (`ActiveWithoutRoute`); `VerdictMeetsRouteIff` says exactly when the judged deployment
  is the one that is served.
* An update of an existing route does not refresh its health check path (`SecondKeepsFirstPath`);
  `HealthCheckPathIffNewOrSame` gives the exact condition.
* The agent key joins its parts with colons, so parts that contain colons can collide and the registered
  agent then keeps another identity; `IdentityKeptIffColonFree` gives the exact condition.
* `STOP_APPLICATION` leaves the route in place, as the decision notes say it should.

## Model

| member | source | states |
|---|---|---|
| Ids.DecimalRoundTrip | internal/store/store.go:49-51 | Printing a number in decimal and reading it back gives the number, for all integers, and the numeral holds no colon, so address and port stay apart. |
| Ids.Pad3Injective | internal/ids/ids.go:10-20 | Zero padding to three digits is injective over all naturals, past 999 as well. |
| Ids.IdInjective | internal/ids/ids.go:10-20 | Two ids of any of the three counted kinds are equal only if kind and number are. |
| Ids.NextIsFresh | internal/store/deployments.go:36-39 | The id for the next counter value is none of those issued so far. |
| Ids.IssuedCount | internal/store/deployments.go:36-39 | A counter that stands at n has issued exactly n different ids. |
| Ids.AgentInjective | internal/ids/ids.go:6-8 | Agent ids are equal exactly when the counter keys and the numbers are, for all environment and role strings, hyphens and digits included. |
| Ids.IdFormat | internal/ids/ids.go:10-20 | Command, deployment and route ids are the prefix cmd-, dep- or route- and then the number, three digits at least and without needless zeros. |
| Ids.AgentFormat | internal/ids/ids.go:6-8 | An agent id is agent-, environment, role and the number, joined by hyphens, the number printed likewise. |
| Ids.Examples | internal/ids/ids.go:5-20 | Ids and upstreams as printed: cmd-001, dep-042, route-999, cmd-1000, agent-test-runtime-001, 10.0.0.5:3000. |
| Ids.UpstreamDials | internal/store/store.go:49-51 | An upstream is the address, a colon, and a numeral without colons that reads back as the port. |
| Ids.UpstreamInjective | internal/store/store.go:49-51 | Two upstream addresses are equal exactly when address and port are, whatever characters the address holds. |
| Ids.KeyUniqueIffColonFree | internal/store/agents.go:23-25 | An agent key identifies the four parts it is built from exactly when none of them contains a colon. |
| Fleet.NewIdIsFresh | internal/store/agents.go:46-49 | A newly registered agent never gets the id of an existing one, even when different environments and roles share a counter. |
| Fleet.RegisterKeeps | internal/store/agents.go:28-71 | Registration keeps the index a bijection onto the agents, every agent numbered by its own counter, and the counters' sum equal to the number of agents. |
| Fleet.RegisterTouchesOne | internal/store/agents.go:28-71 | Registration changes one agent only; a known key keeps its agent id and identity, an unknown key gets a new agent. |
| Fleet.IdentityKeptIffColonFree | internal/store/agents.go:23-44 | Whatever happened before, the registered agent carries the identity that was asked for, exactly when that identity contains no colon. |
| Commands.AddKeeps | internal/store/deployments.go:122-141 | Creating a command uses an unused id and keeps the command table and the report log consistent. |
| Commands.ClaimKeeps | internal/store/commands.go:55-84 | A claim, accepted or refused, keeps claimer, time stamps, status and log consistent. |
| Commands.StartKeeps | internal/store/commands.go:90-125 | So does a start. |
| Commands.FinishKeeps | internal/store/commands.go:136-184 | So does a report: an accepted one adds the one log entry of its command, with the command's outcome. |
| Routing.HostIndex | internal/store/desired_state.go:69-77 | The scan finds the first route of a host, or shows that there is none. |
| RoutingInvariant.UpsertedMembers | internal/store/desired_state.go:68-92 | An upsert by host replaces or adds one entry, keeps every other one, keeps hosts unique, and a replaced entry keeps id, path and health check path. |
| RoutingInvariant.WithoutMembers | internal/store/desired_state.go:94-106 | The filter drops exactly the routes with the id and keeps hosts unique. |
| RoutingInvariant.DeployPublishes | internal/store/commands.go:209-216 | A routed deploy success makes the deployment the only owner of its host at the reported address, gives it the host's existing route id or the next new one, touches no other host, and raises the version by one. |
| RoutingInvariant.RemoveWithdraws | internal/store/commands.go:224-237 | The removal of a deployment that holds a route id removes exactly the routes with that id, clears the held id, and raises the version by one. |
| RoutingInvariant.ApplyKeeps | internal/store/commands.go:192-242 | Every effect on deployments and routes keeps the invariant: ids as issued, versions as counted, hosts unique, routes owned, held ids agreeing on a place, statuses fitting. |
| RoutingInvariant.NoStaleHit | internal/store/commands.go:229-237 | A published route, in any environment, whose id a deployment holds stands for that deployment's environment and host: an old id never names a newer route. |
| RoutingInvariant.RouteIdsUnique | internal/store/desired_state.go:79-91 | No two routes share an id, across all environments. |
| RoutingInvariant.NewRouteUnheld | internal/store/desired_state.go:79-81 | The id of a newly created route is held by no other deployment. |
| RoutingInvariant.StaleRemovalKeepsRoutes | internal/store/commands.go:224-237 | Removing a deployment whose route is gone leaves every route of every environment. |
| MachineInvariant.VersionStep | internal/store/desired_state.go:108-112 | Each effect leaves version and routes of an environment alone, or raises its version by exactly one; it says which. |
| MachineInvariant.DeploymentStep | internal/store/commands.go:192-242 | No deployment is dropped, its fixed fields and its command never change, and an effect with one target changes no other deployment. |
| MachineInvariant.StepKeeps | internal/store/store.go:16-30 | Every operation, accepted or refused, keeps the invariant over agents, commands, logs, deployments, routes, versions and counters. |
| MachineInvariant.Reachable | internal/store/store.go:16-44 | The invariant holds after any sequence of operations. |
| MachineInvariant.AlwaysOwned | internal/store/desired_state.go:68-92 | In every reachable state each published route names a deployment that holds its id, requires a route, has its environment and host, and whose address is the upstream. |
| MachineInvariant.StatusesAlwaysFit | internal/store/commands.go:192-237 | In every reachable state: pending, active and failed routes imply a required route, a host and a held id; a held id implies one of those or removed; healthy implies that no route is due. |
| MachineInvariant.LogAlwaysFits | internal/store/desired_state.go:156-185 | In every reachable state the flags of each logged gateway report agree with the version it met, and once a report has decided the version that is still current, no deployment of that environment waits for a verdict. |
| MachineInvariant.AgentsAlwaysIndexed | internal/store/agents.go:28-71 | In every reachable state index entries and agents correspond one to one. |
| MachineInvariant.ConservationChain | internal/store/commands.go:169-240 | In every reachable state: routes, route numbers, versions, succeeded deploy and remove commands, reports and commands form a chain of inequalities, summed over all environments; deployments and commands are as many as their counters say, agents as many as theirs sum to. |
| History.RunsAreTraces | internal/store/testing.go:4-19 | Every sequence of operations without a reset has a trace of states, to which the results below apply. |
| History.VersionIdentifiesContent | internal/store/desired_state.go:108-112 | Between resets an environment that shows the same version twice shows the same routes, and versions never fall. |
| History.DeploymentsStay | internal/store/deployments.go:76-108 | Once created, a deployment stays, with the same fixed fields and command. |
| History.OneVerdictPerVersion | internal/store/desired_state.go:168-185 | No deployment gets a new route verdict without having been published again in between, at a strictly larger version. |
| History.ActivationFollowsPublication | internal/store/desired_state.go:133-186 | When a gateway report turns a deployment active or failed, the deployment has stood unchanged since its latest deploy success, which left its host served by it at its address; the reported version is the current one and at least that publication's. |
| History.OnlyCurrentReportsCount | internal/store/desired_state.go:156-185 | A gateway report changes the tables exactly when it names the current version with a verdict and a deployment there waits; then none waits any more. Stale and future reports change only the log. |
| Lifecycle.CommandsOnlyAdvance | internal/store/commands.go:55-184 | Over any history a command keeps its order, never goes back, never changes hands, and does not change once finished. |
| Lifecycle.SingleClaimer | internal/store/commands.go:64-84 | A command has no claimer exactly while pending, and then always its target agent. |
| Lifecycle.FinishedOnce | internal/store/commands.go:145-162 | At most one report per command is ever accepted, whatever agents retry. |
| Lifecycle.LogIsBijective | internal/store/commands.go:160-181 | In every reachable state log entries and finished commands correspond one to one, with equal outcomes. |
| Lifecycle.RemainingStep | internal/store/commands.go:55-184 | The work that remains falls strictly with each claim, start and report that changes anything, is unchanged by refused and repeated calls, and grows by three with each new command. |
| Lifecycle.WorkIsBounded | internal/store/commands.go:55-184 | Over any history at most three effective steps per command ever created can occur. |
| Lifecycle.IdsNeverReturn | internal/store/deployments.go:126-127 | Ids of commands, deployments and routes issued between resets stay issued, and the next one is never among the earlier ones. |
| RouteIds.WithdrawnNeverReturns | internal/store/desired_state.go:79-106 | A route id that has been issued and is carried by no route of any environment is never carried by a route again, however long the history goes on without a reset. |
| RouteIds.IdStandsForOnePlace | internal/store/desired_state.go:68-92 | Whoever holds a route id, and whatever route carries it, at any later time is of the environment and host of the deployment that held it before. |
| RouteIds.FormerHolderRemovesNothing | internal/store/commands.go:224-237 | A deployment whose route was gone at some point and that has had no deploy success since can be removed at any later time, however often its host was published anew in between: no route of any environment changes. |
| RouteIds.PublishedUntilRemoval | internal/store/commands.go:224-237 | A published route id is still published at a later time exactly if no step in between is an accepted remove success about a deployment that holds the id at that moment. |
| Serving.LiveHasRouteIff | internal/store/commands.go:209-237 | A deployment that is pending, active or failed has its route published exactly if, since its latest deploy success, no deployment was removed while it held the route id. |
| Serving.VerdictMeetsRouteIff | internal/store/desired_state.go:171-183 | When a gateway report turns a deployment active or failed, its host is served by it at its address exactly if, since its latest deploy success, no other deployment of its environment and host was published and no deployment was removed that held its route id. |
| Outcomes.DeploymentFollowsCommand | internal/store/commands.go:108-181 | In every history of the operations the handlers perform, with reports that address their own deployments, each deploy command has its own deployment, which unless removed is in command_created while the command is pending or claimed, deploying or failed while it runs, healthy or with a route pending, active or failed once it succeeded, and once it failed in failed if it had been started and in command_created if not. |
| Outcomes.FailureSeenIffStarted | docs/specs/06-command-and-deployment-lifecycle.md:101-106 | In such a history, at any time after a deploy command has failed, its deployment, unless removed, is failed exactly if the command had been started. |
| Outcomes.FailureReportSeenIffRunning | internal/store/commands.go:175-181 | In such a history an accepted failure report of a deploy command leaves its deployment failed exactly if the command was running, not merely claimed, and the deployment was not removed. |
| Lifecycle.PhasesOnlyAdvance | internal/store/commands.go:108-113 | No deployment re-enters command_created or deploying. |
| Lifecycle.CommandsFollowDiagramIffStarted | docs/specs/06-command-and-deployment-lifecycle.md:17-24 | A step moves a command as documented, except exactly an accepted report on a command that was only claimed. |
| Lifecycle.DeploymentsFollowDiagramIff | docs/specs/06-command-and-deployment-lifecycle.md:55-69 | An effect moves a deployment as documented, or leaves its status as it is, except exactly a deploy success on one that is neither deploying nor already where the success leads (so publishing a route_pending one again counts as following), or a stop or remove success on one that still waits for its deploy or its verdict. |
| Lifecycle.RemovedUnlessRedeployed | internal/store/commands.go:195-216 | A removed deployment stays removed in a step, except exactly when an accepted deploy success addresses it. |
| Lifecycle.RemovalIsFinal | internal/api/handlers_testing.go:147-153 | With the operations the handlers perform and reports that address their own deployments, a removed deployment whose deploy command is finished stays removed. |
| Operations.RegisterAnswers | internal/store/agents.go:28-71 | A registration refreshes the profile, sets online and the last-seen time, and keeps id, identity and registration time of a known key; an unknown key gets the next number of its environment and role, and nothing else changes. |
| Operations.DeployAnswers | internal/store/deployments.go:31-111 | Files and answers a deployment and its command under the next ids, every field as asked for: the given container name or the generated one, the payload in agreement with the deployment, the five mandatory labels over any custom ones, nothing claimed and nothing published. |
| Operations.CreateAnswers | internal/store/deployments.go:122-141 | Files and answers a pending command under the next id, every field as asked for, and changes nothing else. |
| Operations.ClaimAnswers | internal/store/commands.go:55-84 | A claim is granted to the target agent of a pending command, and again to it while claimed; every other claim is refused with its own reason, and changes nothing. |
| Operations.StartAnswers | internal/store/commands.go:90-125 | A start is granted to the target agent of a claimed command, and again to it while running; every other start is refused with its own reason, and changes nothing. |
| Operations.StartMoves | internal/store/commands.go:108-113 | The first start of a deploy command moves its own deployment from command_created to deploying; nothing else in the tables changes. |
| Operations.ReportRefusals | internal/store/commands.go:140-150 | A report about an unknown, a pending or a finished command, or with another status, is refused with its own reason, and changes nothing. |
| Operations.ReportAnswers | internal/store/commands.go:152-184 | An accepted report is logged and answered about the deployment it names, or else the command's own, and finishes the command with its outcome and time. |
| Operations.FailureMarks | internal/store/commands.go:175-181 | A failure marks a deployment that is deploying as failed, and changes nothing else. |
| Operations.StopMarks | internal/store/commands.go:218-222 | A stop success marks the deployment removed, leaves its route, and changes nothing else. |
| Operations.OthersMarkNothing | internal/store/commands.go:192-242 | A cleanup success, a success of another command type, and any report about an unknown deployment change no deployment and no route. |
| Operations.RemovalMarks | internal/store/commands.go:224-237 | A remove success marks the deployment removed and takes exactly the route with its id out of its environment, the others in order, at the next version; without a held id only the marks change. |
| Operations.DeployMarksHealthy | internal/store/commands.go:196-207 | A deploy success of a deployment that needs no route marks it healthy at the reported address, and changes nothing else. |
| Operations.DeployMarksPending | internal/store/commands.go:196-216 | A routed deploy success redirects the route of its host to the reported address, or appends a new one under the next route id, at the next version, and leaves the deployment in route_pending with that route's id. |
| Operations.ReportTouchesOne | internal/store/commands.go:152-184 | Whatever a report says, deployments other than the one it is about stay as they are. |
| Operations.GatewayAnswers | internal/store/desired_state.go:133-186 | A gateway report is logged and answered with the version it met and its flags; one about the current version turns every waiting deployment of its environment active if it says applied and failed if it says failed, at the later time, and no other report changes a deployment. |
| Operations.ReadAnswers | internal/store/desired_state.go:12-25 | A read answers the environment's version and routes, or version 0 without routes, as gateway_routes of that environment, and changes nothing. |
| Operations.ResetAnswers | internal/store/testing.go:4-19 | A reset leaves all tables and logs empty and all counters at zero; a restart leaves everything. |
| Callers.OneAgentPerCommand | internal/store/commands.go:64-125 | All claims and starts of a command that are ever granted come from one agent, its target. |
| Callers.ClaimedBefore | internal/store/commands.go:64-73 | A claim time was set by an earlier step in which the target agent claimed the pending command at that time. |
| Callers.StartedBefore | internal/store/commands.go:99-106 | A start time was set by an earlier step in which the target agent started the claimed command at that time. |
| Callers.FinishedWasClaimed | internal/store/commands.go:140-147 | No report is accepted for a command that its target agent has not claimed before. |
| Callers.VerdictIff | internal/store/desired_state.go:168-183 | Over any history a waiting deployment turns active exactly in a step that reports its environment's current version as applied, and failed exactly in one that reports it as failed. |
| Callers.VerdictsNeedWaiting | internal/store/desired_state.go:168-183 | No deployment turns active or failed in any other way. |
| Callers.DeploymentStaysAsAsked | internal/store/deployments.go:31-111 | At any later time a created deployment and its command are there with the fixed fields that were asked for and answered. |
| Callers.LogsOnlyGrow | internal/store/commands.go:160-169 | Both report logs only ever grow at the end. |
| Callers.ReportStaysLogged | internal/store/commands.go:152-169 | An accepted report stays at its place in the log as it was answered. |
| Callers.AgentIdsFollowKeys | internal/store/agents.go:28-71 | Over any history two registrations get the same agent id exactly when their keys are equal; the agent keeps its first identity and registration time. |
| Callers.UpstreamsReadBack | internal/store/commands.go:209-216 | In every reachable state the upstream of each published route splits into the address and the port its deployment holds. |
| RouteBook.EffectShown | internal/store/desired_state.go:68-106 | On the published routes, seen as host to id, owner and upstream, each effect is one write, one erasure by held id, or nothing. |
| RouteBook.RoutesRefineBook | internal/store/commands.go:192-242 | After any operations the published routes are the fold of the history of accepted reports over a last-writer map; list order, the scan and the in-place filter never show. |
| RouteOwnership.RouteLostIffStranding | internal/store/commands.go:224-237 | A live deployment with a published route that stays live loses that route in an effect exactly if the effect removes another deployment that holds the same route id, whatever the other deployments look like. |
| RouteOwnership.RoutesLostIffStranding | internal/store/commands.go:224-237 | In a state in which every live deployment has its route published, each effect keeps it so, except exactly the removal of a deployment whose route id another live one holds. |
| RouteOwnership.HealthCheckPathIffNewOrSame | internal/store/desired_state.go:69-88 | A published route carries the path of the deployment it now serves exactly when it is new or had that path already. |
| SharedHosts.TableFollowsDeployments | internal/store/commands.go:209-237 | As long as no two routed deployments of an environment share a host, its routes are exactly those that its deployments holding a route id determine, field by field, whatever happens in other environments. |
| SharedHosts.LiveRoutesPublished | internal/store/commands.go:209-237 | Then every pending, active or failed deployment of the environment has its own route published, and no other deployment holds its id. |
| Separation.OthersUntouched | internal/store/commands.go:192-242 | An effect leaves deployments, routes and version of every other environment as they are. |
| Separation.EffectsCommute | internal/store/desired_state.go:68-112 | Effects in different environments commute, unless both create a route. |
| Separation.NewRoutesCommute | internal/store/desired_state.go:79-91 | When both create a route they commute up to exchanging the two new ids wherever they occur. |
| Separation.CreationCommutes | internal/store/deployments.go:76-91 | Creating a deployment commutes with every effect in another environment. |
| Independence.EnvironmentsDoNotInterfere | internal/store/desired_state.go:94-186 | Any stretch of a history whose steps work elsewhere leaves the deployments, routes and version of an environment exactly as they were. |
| Independence.StepUnseen | internal/store/commands.go:136-184 | A step in another environment and on another command changes neither the effect nor the answer of an operation. One of the two may create a deployment; two creations take the next two ids in turn and are not covered. |
| Independence.StepsCommute | internal/store/commands.go:136-242 | Two such steps, of which one may create a deployment, commute on all tables, up to exchanging two new route ids when both create a route. |
| Surprises.RolloverStrands | internal/store/commands.go:209-237 | For all inputs: deploy twice to one host, remove the first; the second waits for a verdict on a route that is gone. |
| Surprises.ActiveWithoutRoute | internal/store/desired_state.go:168-183 | For all inputs: if the gateway then reports the current version as applied, the second deployment is marked active although its environment has no route. |
| Surprises.SecondKeepsFirstPath | internal/store/desired_state.go:69-76 | For all inputs: a second deployment on a host is served with the health check path of the first. |
| Surprises.LateSuccessRevives | internal/store/commands.go:195-216 | For all inputs: a deployment stopped before its deploy command reported leaves removed when the report comes in. |
| Surprises.EarlyFailureUnseen | internal/store/commands.go:175-181 | For all inputs: in the run that creates a deployment, claims its command and reports a failure, the command fails and the deployment stays in command_created. |
| Records.DesiredStateRecord.Find | internal/store/desired_state.go:69-77 | The scan returns the index of the first route of the host, or the number of routes. |
| Collections.Append | internal/store/desired_state.go:89-91 | Adds one element at the end of a slice, in the same array or in a new larger one. |
| Records.DesiredStateRecord.AddRoute | internal/store/desired_state.go:89-91 | Appends one route, in place or into a new larger array, and changes nothing else. |
| Records.DesiredStateRecord.Redirect | internal/store/desired_state.go:71-74 | Changes upstream and owner of one route in place. |
| Records.DesiredStateRecord.Filter | internal/store/desired_state.go:94-106 | The filter that reuses its own array leaves exactly the other routes, in order. |
| Records.DesiredStateRecord.Copy | internal/store/desired_state.go:39-48 | The copy shows the same and has an array of its own. |
| Stores.Store.constructor | internal/store/store.go:32-44 | A new store is well formed and has the initial value. |
| Stores.Store.Reset | internal/store/testing.go:4-19 | A reset leaves the initial value, counters included. |
| Stores.Store.RegisterAgent | internal/store/agents.go:28-71 | The store and the returned agent are as registration in the state machine says; the live record is returned. |
| Stores.Store.InitDeploy | internal/store/deployments.go:31-111 | Files a new deployment and its new command under the next ids, linked to each other and advanced to command_created. |
| Stores.Store.CreateCommand | internal/store/deployments.go:122-141 | Files a pending command under the next command id and changes nothing else. |
| Stores.Store.ClaimCommand | internal/store/commands.go:55-84 | Leaves the command table, and answers, as a claim in the state machine; every refusal is covered. |
| Stores.Store.StartCommand | internal/store/commands.go:90-125 | Likewise a start, with its effect on the deployment. |
| Stores.Store.ReportCommand | internal/store/commands.go:136-184 | Likewise a report, with its effects on deployment, routes, version and counters. |
| Stores.Store.ApplySucceeded | internal/store/commands.go:192-242 | Leaves deployments, routes, versions and counters as the effect of a success of that command type. |
| Stores.Store.DeploySucceeded | internal/store/commands.go:196-216 | Writes the deployment, upserts its route and raises the version, as a deploy success. |
| Stores.Store.RemoveSucceeded | internal/store/commands.go:224-237 | Marks the deployment removed, takes its route out, raises the version and clears the held id. |
| Stores.Store.UpsertRoute | internal/store/desired_state.go:68-92 | Leaves the tables of an upsert and returns the id of the route that now serves the host. |
| Stores.Store.RemoveRoute | internal/store/desired_state.go:94-106 | Leaves the tables without the routes of that id in that environment. |
| Stores.Store.GetOrCreateDesiredState | internal/store/desired_state.go:52-64 | Returns the environment's record, a new empty one if there was none. |
| Stores.Store.IncrementDesiredState | internal/store/desired_state.go:108-112 | Raises the version by one and records it in the counters. |
| Stores.Store.ApplyDesiredStateReport | internal/store/desired_state.go:133-186 | Logs the report with the right flags and, if it is about the current version, gives every waiting deployment of the environment its verdict. |
| Stores.JudgeAll | internal/store/desired_state.go:171-183 | The loop over the deployments, in any order, gives each exactly the verdict it is due. |
| Stores.MergeLabels | internal/store/deployments.go:46-59 | The loop over the custom labels, in any order, adds those that are not mandatory. |
| Stores.Store.GetDesiredState | internal/store/desired_state.go:12-25 | Returns a new record with an array of its own that shows the environment's desired state, or version 0 without routes. |
| Stores.Store.Snapshot | internal/store/snapshot.go:26-97 | Returns copies that stand for the store's value; every map, array and record of them is new, so the snapshot shares nothing with the store. |
| Stores.Store.Restore | internal/store/snapshot.go:102-142 | The store then has the value the snapshot stands for, in the snapshot's own objects; missing maps become new empty ones. |
| Collections.CopyTable | internal/store/snapshot.go:36-39 | Copying entry by entry, in any order, gives a map of its own with the same entries. |
| Collections.CopySlice | internal/store/snapshot.go:53-54 | The copied slice has the same elements in an array of its own. |
| Snapshots.CopyStates | internal/store/snapshot.go:56-62 | Copies of desired states show the same and share neither record nor array with the originals or each other. |
| Service.Execute | internal/store/store.go:16-30 | One operation on the real store leaves the value, and gives the answer, that the state machine says; a restart goes through a snapshot into another store. |
| Service.Serve | internal/store/snapshot.go:99-142 | The same for any sequence of operations, restarts and resets among them. |
| Service.ServeThroughRestarts | internal/store/snapshot.go:25-142 | Wherever restarts fall in a sequence of operations, each a snapshot restored into another store, the store ends with the value, and gives the other answers, of the sequence without them. |
| Service.ServeFromStart | internal/store/store.go:32-44 | Whatever sequence of operations a new store serves, the store reached is well formed and its value satisfies the state machine's invariant. |
| Service.CopyOutlivesRun | internal/store/desired_state.go:39-48 | A desired state that was handed out shows the same after any later operations. |
| Service.StoreOutlivesCopy | internal/store/desired_state.go:39-48 | Writing to a desired state that was handed out does not reach the store. |
| Service.SnapshotOutlivesRun | internal/store/snapshot.go:25-97 | A snapshot stands for the same value after any later operations, all its maps, logs and records included. |

## Left out

- Stores.Store.Restore: asks that no map, array or record occurs twice in the snapshot; decoded snapshots and those the store takes satisfy this. Null records, which a hand-written file could hold, are not modelled.
- Stores.Store.RegisterAgent: capabilities are one opaque value, and the last heartbeat is not part of an agent here; asks that the index does not name a missing agent under the key, where the code would fail on a nil record, which only a snapshot edited by hand can lead to.
- Stores.Store.InitDeploy: the payload is a record of its fields; its JSON text is not modelled.
- Stores.Store.UpsertRoute: the path is always "/", as in the store's only call.
- A nil slice is an empty one; how far an append enlarges an array is not part of any contract.
- Heartbeat, Debug, the List and Get filters and GetAllDesiredStates: single-branch reads and writes.
- HTTP handlers, routing, authentication, response building: only the command types that handlers create are used.
- Files, tickers and signals of the persistence package: saving and loading a snapshot is the identity.
- JSON decoding: a deploy result comes with the address and port it decodes to, each empty or 0 when it does not decode.
- Whether a command's target agent exists: the store does not check it.
- Timeouts, which are stored and never acted on, and the documented but unimplemented cancelled and expired states.
- 64-bit overflow of counters and versions: numbers are unbounded.
- Data races through returned live records: each operation is one atomic step.
