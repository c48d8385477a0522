# PyCrate, verified

A model of the parts of PyCrate where state, time and order make it hard to be sure of
anything by reading one function: the cluster control plane, the seccomp filter
generator, the dependency order, the compose engine, the stop/monitor race and the
creation limit of containers, the log buffer, the port forwarder, the rate limiter and
the health checker. `dafny verify dfyconfig.toml` checks everything.

## How it is organised

- `Seqs.dfy`, `Wrappers.dfy`: counting, filtering and stable sorting of rows; results.
- `Tables.dfy` gives the cluster's tables as values and every SQL statement as a function;
  `ClusterState.dfy`, `Scheduler.dfy`, `Reconciler.dfy` and `Agent.dfy` are the classes
  whose methods work in place, each proved against those functions.
- `PassMachine.dfy` breaks a reconcile pass into its transactions and shows that they add
  up to the pass; `ClusterProtocol.dfy` is the cluster as a state machine in which those
  transactions interleave with joins, removals, deployments, late and repeated reports,
  polls, executions that succeed, half succeed or fail, lost acknowledgements, exits and
  crashes. `PassProperties`, `PassAssignments`, `PassHealth`, `PassIdempotence`,
  `SpreadBalance`, `RunningOnHealthy`, `Stranded`, `AtLeastOnce` and `OldestKept` hold the
  theorems about passes and about all runs; `AgentRound`, `Convergence` and `EnoughRoom`
  those about rounds. `Runs`, `RoundsAreRuns` and `OldestStopped` show that passes and
  rounds are runs of the machine, and give runs from the first start to the states the
  theorems are about.
- `Compose` says what the compose engine does to its lists, `ComposeProperties`,
  `ComposeStart` and `ComposeCrashes` what that amounts to, and `ComposeEngine` is the
  object that does it in place.
- `Seccomp`, `StartOrder`, `StopRace`, `AdmissionLimit`, `LogBuffer`, `PortForward`,
  `RateLimit` and `HealthStatus` each stand for one component.

## What the code does not keep

- A pass that dies of an exception between marking a node unhealthy and marking its
  containers lost leaves them running in the table, because only healthy nodes are examined
  again: no later pass helps until the node reports, joins again or is removed.
  `RunningOnHealthy` says for every run which nodes are stranded in this way and that an
  active container is off the healthy nodes exactly on those
  (`RunningOnHealthy.UnhealthyIffStranded`, `RunningOnHealthy.AbortStrandsIff`);
  `Stranded.EarlyAbortBreaksIt` is a run from the first start that does it, and
  `Stranded.StrandedUntilHeard` shows how long it lasts.
- The k oldest replicas are safe from a scale-down only while pending creates leave room for
  them: pending creates count as replicas that run. `OldestKept.SparedIffPendingLeavesRoom`
  is the exact condition; `OldestStopped.OldestCanBeStopped` is a run from the first start
  whose last pass asks for the only running replica to be stopped.
- The 20 points a master loses are meant to prefer workers, but masters are only candidates
  where no worker is: they never decide between the two (`Scheduling.RoleNeverDecides`).
- A block list of more than 255 entries is compiled to jumps cut to eight bits; what it then
  blocks is the last 255 entries. `Seccomp.FilterMeaning` states it for every length,
  `Seccomp.BlocksTheListIff` is the exact condition and `Seccomp.TheBoundIsTight` a list.
- Starting a stopped container does not look at the limit. `AdmissionLimit.StepKeepsLimitIff`
  gives the exact step that breaks it, `AdmissionLimit.RestartBreaksTheLimit` a run.
- An addition of a port mapping that fails midway leaves rules behind that no removal looks
  for, one without an iptables program records a mapping without rules, a removal whose
  commands fail forgets the mapping all the same, and removing a mapping that is not active
  can take another's rules. The exact conditions are `PortForward.AddKeepsAgreementIff`,
  `PortForward.RemoveActiveKeepsIff`, `PortForward.RemoveInactiveKeepsIff` and
  `PortForward.RemoveAllKeepsIff`; from a new forwarder it happens in
  `PortForward.RefusedAdditionLeavesARule`, `PortForward.AdditionWithoutRules`,
  `PortForward.RefusedRemovalLeavesARule` and `PortForward.RemovalTakesAnothersRules`.
- A failed restart stays in a compose service's list beside the instance that replaces it,
  so that a further pass has work although the wanted number runs; it has none exactly when
  every creation of the first pass started (`ComposeProperties.SecondPassDoesNothingIff`).
- `on-failure` does not restart a container that crashed: the pass sets such an instance to
  STOPPED first, which that policy passes over. Only `always` restarts it
  (`ComposeCrashes.CrashIsRestartedIff`); under any other policy every crash leaves a row
  that no later pass takes away (`ComposeCrashes.EveryCrashLeavesARow`,
  `ComposeCrashes.StoppedRowStays`), as in `ComposeCrashes.OnFailureDoesNotRestart`. The
  model follows the code.

## Model

| member | source | states |
|---|---|---|
| `StateStore.InsertReportedDistinct` | cluster/state.py:335-360 | Inserting or replacing reported rows one by one leaves one row per container id, even when a report names an id twice. |
| `StateStore.InsertReportedOrigin` | cluster/state.py:335-360 | After a heartbeat every row is an old one of another node or a reported one under the reporting node; nothing else appears. |
| `StateStore.InsertReportedIff` | cluster/state.py:335-360 | After the row-by-row replacement the table holds exactly the rows no report names and, for each reported id, the last report of it, under the reporting node. |
| `StateStore.InsertReportedShows` | cluster/state.py:335-360 | Every reported container has a row afterwards, under the reporting node. |
| `StateStore.InsertReportedKeeps` | cluster/state.py:335-360 | Rows whose id is not reported survive a heartbeat unchanged. |
| `StateStore.UpdateHeartbeatKeepsValid` | cluster/state.py:302-361 | A heartbeat keeps every primary and foreign key; that of an unknown node changes nothing. |
| `StateStore.RemoveNodeKeepsValid` | cluster/state.py:374-380 | Removing a node removes with it all rows that refer to it, so that no foreign key dangles. |
| `StateStore.RegisterNodeKeepsValid` | cluster/state.py:254-282 | Joining keeps all keys and the rows of other nodes; the node's own row is healthy with the given totals and time, and joining again adds no row. |
| `StateStore.CreateDeploymentKeepsValid` | cluster/state.py:401-431 | Deploying keeps all keys; a known service keeps its deployment id and takes replicas and workload from the new deployment, other rows stay; a new one is appended as it is; a clash of ids between services changes nothing. |
| `StateStore.CreateAssignmentKeepsValid` | cluster/state.py:506-547 | A new assignment is one pending row at the end under an id no row has; for an unknown node nothing is stored. |
| `StateStore.CheckMarksTheStale` | cluster/state.py:382-399 | Row by row: a node is healthy after the check iff it was and its heartbeat is not before the cutoff; nothing else changes. |
| `StateStore.ClusterState.Register` | cluster/state.py:254-282 | A new node is appended healthy with the given role and totals; a known one takes address, totals and time and is healthy; no other row changes; all keys hold. |
| `StateStore.ClusterState.GetHealthyNodes` | cluster/state.py:298-300 | Exactly the healthy nodes, in the order they joined. |
| `StateStore.ClusterState.Heartbeat` | cluster/state.py:302-361 | Accepted iff the node is known or reports nothing; its row is healthy with time and load, and of its containers the last report of each id remains; rows of other nodes stay unless their id is reported. |
| `StateStore.ClusterState.CheckHealth` | cluster/state.py:382-399 | Returns the stale nodes; row by row, a healthy node last heard of more than 30 s ago ends unhealthy, and nothing else changes. |
| `StateStore.ClusterState.Remove` | cluster/state.py:374-380 | Exactly the rows of the node, its containers and its assignments go. |
| `StateStore.ClusterState.Deploy` | cluster/state.py:401-431 | A known service keeps its id and takes replicas and workload of the new deployment, row by row; a new one is appended; it is refused, without a change, iff another service has its deployment id. |
| `StateStore.ClusterState.Scale` | cluster/state.py:461-468 | The replicas of that service change and nothing else. |
| `StateStore.ClusterState.Undeploy` | cluster/state.py:450-459 | Exactly the deployments of other services remain. |
| `StateStore.ClusterState.MarkLost` | cluster/state.py:495-502 | That container is lost; nothing else changes. |
| `StateStore.ClusterState.Assign` | cluster/state.py:506-547 | Created iff the node is known; one pending row with exactly these fields under a fresh id is appended. |
| `StateStore.ClusterState.Acknowledge` | cluster/state.py:559-566 | That row is acknowledged and nothing else changes. |
| `StateStore.ClusterState.ClearOld` | cluster/state.py:568-577 | Exactly the rows that are pending or at most an hour old remain. |
| `StateStore.ClusterState.Reserve` | cluster/state.py:601-615 | That node's used CPU and memory grow by the amounts, row by row; nothing else changes. |
| `StateStore.ClusterState.MasterHeartbeat` | cluster/state.py:617-628 | The heartbeat time of that node moves iff it is a master; nothing else changes. |
| `Scheduling.SortDescHead` | cluster/scheduler.py:128-136 | The head of the sorted scores is the first of the largest: ties go to the node that joined first. |
| `Scheduling.EligibleIff` | cluster/scheduler.py:85-115 | Exactly the healthy nodes with room are eligible, masters among them only if no healthy worker has room. |
| `Scheduling.ChoiceIsBest` | cluster/scheduler.py:73-141 | A placement is on an eligible node, none scores higher, and no earlier one scores as high. |
| `Scheduling.RefusedIffNoRoom` | cluster/scheduler.py:73-126 | Scheduling is refused iff no healthy node has room, with the reason "no healthy nodes" iff there are none. |
| `Scheduling.ScoreDifference` | cluster/scheduler.py:159-183 | Positive scores differ by exactly 0.4 for each point of free CPU and of free memory, 20 for the role and 2 for each running container. |
| `Scheduling.ScoreBounds` | cluster/scheduler.py:159-183 | A worker with everything free and nothing running scores 80; no score is more, or below 0. |
| `Scheduling.NobodyHasAnAdvantage` | cluster/scheduler.py:85-141 | No candidate has an advantage over the node chosen, if that one scores at all; if it does not, no candidate does. |
| `Scheduling.BusierIsNotChosen` | cluster/scheduler.py:175-181 | Of two candidates of one role with equal totals and equal free resources the one that runs more is not chosen while the other scores. |
| `Scheduling.RoleNeverDecides` | cluster/scheduler.py:85-105 | All candidates are masters or none is, so that the 20 points never decide between a master and a worker. |
| `Scheduling.Scheduler.Candidates` | cluster/scheduler.py:90-115 | The two filter loops compute the workers with room, or else all nodes with room. |
| `Scheduling.Scheduler.ScoreAll` | cluster/scheduler.py:128-132 | One decision with its score for each candidate, in order. |
| `Scheduling.Scheduler.Schedule` | cluster/scheduler.py:73-141 | The loops and the sort compute the choice; no candidate has an advantage over the node chosen, counted in free CPU and memory, role and running containers; the tables are not touched. |
| `SpreadBalance.MoreRoomScoresHigher` | cluster/scheduler.py:159-183 | Of two alike idle workers the one with more room scores strictly higher. |
| `SpreadBalance.ChosenWasGivenLeast` | cluster/scheduler.py:85-183 | The worker chosen has been given no more replicas than any other. |
| `SpreadBalance.SpreadIsBalanced` | cluster/reconciler.py:230-269 | Scaling up by any amount on alike idle workers gives any two of them numbers of replicas at most one apart. |
| `Reconciliation.Reconciler.LoseContainersOn` | cluster/reconciler.py:168-189 | Row by row: exactly the running and starting containers of the node become lost. |
| `Reconciliation.Reconciler.HandleFailures` | cluster/reconciler.py:168-189 | The same for each stale node in turn. |
| `Reconciliation.Reconciler.ScaleUpBy` | cluster/reconciler.py:223-269 | At most the number asked for of new rows, each a pending create with the deployment's id, service, image, command, resources and environment, and one reservation each, until scheduling is refused. |
| `Reconciliation.Reconciler.ScaleDownBy` | cluster/reconciler.py:271-300 | One pending stop for each of the newest, as many as are too many, with its container, node and service. |
| `Reconciliation.Reconciler.ReconcileAll` | cluster/reconciler.py:191-221 | Each deployment against the snapshot taken after failure handling and against the pending creates of the moment. |
| `Reconciliation.Reconciler.Cleanup` | cluster/reconciler.py:302-339 | A pending stop for each running orphan of the snapshot that has none, with its container, node and service, and no other row. |
| `Reconciliation.Reconciler.Reconcile` | cluster/reconciler.py:126-154 | All phases together compute one pass; no foreign key can fail in it. |
| `Reconciliation.Reconciler.RunOnce` | cluster/reconciler.py:107-124 | A pass, then the pass counter goes up by one. |
| `PassMachine.PassInduction` | cluster/reconciler.py:126-339 | What every single transaction of a pass keeps, the pass keeps. |
| `PassMachine.PassAloneIsPass` | cluster/reconciler.py:126-339 | The pass broken into single transactions, run without interruption, is the pass the methods compute. |
| `PassProperties.AdvanceKeepsValid` | cluster/reconciler.py:126-339 | Every transaction of a pass, after anything that may have come between, keeps all keys. |
| `PassProperties.PassKeepsValid` | cluster/reconciler.py:126-339 | A pass keeps all keys and never changes a deployment. |
| `PassProperties.PassConservesReservations` | cluster/reconciler.py:223-269 | Over a whole pass and all deployments each node's used CPU and memory grow by exactly the sum over the creates placed on it. |
| `PassProperties.PassNeverOvercommits` | cluster/reconciler.py:223-269 | A node within its capacity before a pass is within it afterwards, for any work, also with resources below one. |
| `PassAssignments.PassIssues` | cluster/reconciler.py:223-339 | Over a whole pass from any valid tables: every new create carries id, service, image, command, resources and environment of a deployment, on a healthy node; every new stop names a running container where it is, with its deployment's service or, for an orphan, its own; every other assignment stays unless it is old and the pass tidies up; without stale nodes no container row changes. |
| `PassHealth.PassChangesRows` | cluster/reconciler.py:126-269 | Of a node's row a pass changes nothing but status, used CPU and used memory, and the status only to unhealthy and exactly for the stale nodes. |
| `PassHealth.HealthyAfterPassIff` | cluster/reconciler.py:129-140 | After a pass a node is healthy iff it was and has been heard of within 30 s, or is the master that runs the pass. |
| `PassIdempotence.PassesNeverOverbook` | cluster/reconciler.py:203-221 | Over any number of passes without agents, running plus pending replicas never exceed the larger of what is asked and what was there. |
| `PassIdempotence.ScaleUpFillsOrIsRefused` | cluster/reconciler.py:223-269 | Scaling up adds the whole deficit, or ends where no healthy node has room. |
| `PassIdempotence.SettledPassOnlyStops` | cluster/reconciler.py:191-221 | Once the deficit is placed, a pass in which no node times out adds nothing but stops. |
| `PassIdempotence.SettledStaysSettled` | cluster/reconciler.py:191-221 | And so do all later passes: no create is ever added. |
| `PassIdempotence.OrphanGetsOneStop` | cluster/reconciler.py:302-339 | A running orphan without pending stop gets exactly one; one that has some gets none. |
| `RunningOnHealthy.ActiveContainersAreOnHealthyNodes` | cluster/reconciler.py:135-189 | In every run from the first start without an abort in the first two phases: once phase 2 of a pass is over, and between passes, every active container is on a registered healthy node. |
| `RunningOnHealthy.ActiveContainersArePlaced` | cluster/reconciler.py:107-189 | In every run from the first start, aborts anywhere, at every moment: an active container is on a registered node, off the healthy ones iff the run's trace names its node: stranded, or marked by the pass under way and still on its list, and not heard of since. The trace is told from the events, without a look at health. |
| `RunningOnHealthy.UnhealthyIffStranded` | cluster/reconciler.py:107-189 | Once phase 2 is over, and between passes, an active container is off the healthy nodes iff its node is stranded: marked by a pass that died, with no report, join or removal since. |
| `RunningOnHealthy.AbortStrandsIff` | cluster/reconciler.py:113-124 | After a run that has stranded nothing, an abort leaves an active container off the healthy nodes iff the pass had one on a node that it had listed and marked, had not finished with, and that had given no sign since. |
| `Stranded.EarlyAbortBreaksIt` | cluster/reconciler.py:113-124 | A run from the first start in which a pass dies after marking a node: between passes two containers are marked running on an unhealthy node. |
| `Stranded.StrandedUntilHeard` | cluster/state.py:382-399 | In every run, through any number of passes, such a container keeps its row as it is, and its node stays unhealthy, until the node reports, joins or is removed, or another node reports a container of that id. |
| `Stranded.ReportEndsIt` | cluster/state.py:302-361 | The next report of a registered node makes it healthy again. |
| `AtLeastOnce.NoAssignmentIsLost` | cluster/agent.py:186-200 | In every run in which its node stays, a pending assignment is still offered, or its acknowledgement has arrived and a create has put a running container of its service and deployment into the engine (a stop has been tried). |
| `AtLeastOnce.OfferedUntilAcknowledged` | cluster/state.py:549-577 | In every run without the removal of its node and without its acknowledgement, a pending assignment is returned by every poll, executed or not. |
| `AtLeastOnce.AckedWasExecuted` | cluster/agent.py:186-200 | In every run every acknowledged create has, in the step that executed it, put a running container of its service and deployment into the engine; an acknowledged stop has been tried. |
| `AtLeastOnce.AckIsNeverUndone` | cluster/state.py:559-577 | In every run, a row that later carries an acknowledged id is that acknowledged row itself: the acknowledgement is not undone, and the id is not given out again. |
| `OldestKept.OldestAreNeverStopped` | cluster/reconciler.py:271-293 | In every undisturbed run no stop is ever issued for a protected oldest container, all of them keep running, and the running count stays at or above their number. |
| `OldestKept.KOldestAreNeverStopped` | cluster/reconciler.py:271-293 | From any state between passes whose table and pending reports show the running containers and that holds no stop of one, with distinct start times and any k that pending creates leave room for: no undisturbed run ever stops one of the k oldest. |
| `OldestKept.ScaleDownIsReached` | cluster/reconciler.py:203-221 | A run from the first start ends in such a state with two running containers, one wanted and k = 1. |
| `OldestKept.NameTheOldest` | cluster/reconciler.py:278-282 | With distinct start times any number of oldest running containers can be told from the rest. |
| `OldestKept.VictimsAreNewer` | cluster/reconciler.py:278-282 | The newest so many never include one of the oldest, whatever the order of the snapshot. |
| `OldestStopped.OldestCanBeStopped` | cluster/reconciler.py:203-293 | A run from the first start leads to one replica wanted, one running and a failed create still pending; the next pass assigns a stop of the one that runs. |
| `OldestKept.SparedIffPendingLeavesRoom` | cluster/reconciler.py:203-221 | When something has to be stopped, the k oldest are spared iff pending creates plus k do not exceed the replicas. |
| `AgentRound.CreateConserves` | cluster/agent.py:260-305 | Executing and acknowledging a create leaves the number of replicas intended (running without pending stop, plus pending creates) unchanged. |
| `AgentRound.StopConserves` | cluster/agent.py:307-327 | The same for a stop. |
| `AgentRound.WorkAllConserves` | cluster/agent.py:175-200 | The same for a whole round of all agents. |
| `AgentRound.WorkAllKeepsTidy` | cluster/agent.py:175-200 | After a round nothing is pending on the nodes that worked, and ids stay unique. |
| `AgentRound.ReportAllShows` | cluster/state.py:302-361 | After all agents have reported the table shows, node by node, exactly what the engines hold. |
| `Convergence.PassIntendsReplicas` | cluster/reconciler.py:191-300 | A pass over synchronised tables brings the intended number of each deployment to exactly its replicas. |
| `Convergence.PassIntendsNoOrphan` | cluster/reconciler.py:302-339 | And the intended number of orphans to zero. |
| `Convergence.RoundRests` | cluster/agent.py:175-200 | After one round from any state the table shows the engines and nothing is pending. |
| `Convergence.RestedRoundConverges` | cluster/reconciler.py:126-339 | One more round gives exactly the replicas of every deployment and no orphan. |
| `Convergence.TwoRoundsConverge` | cluster/reconciler.py:126-339 | From any state two smooth rounds converge, in the engines and in the table. |
| `Convergence.ConvergedPassAddsNothing` | cluster/reconciler.py:126-339 | A pass over a converged cluster adds no assignment and changes no container. |
| `Convergence.ConvergedIsSmooth` | cluster/reconciler.py:126-339 | A converged cluster in which no node goes stale needs no room: its round is smooth. |
| `Convergence.ConvergedForGood` | cluster/reconciler.py:126-339 | Any number of further rounds in which no node goes stale stay converged. |
| `EnoughRoom.ScaleUpWithRoom` | cluster/reconciler.py:223-269 | If some healthy worker has room for all missing replicas of a deployment, all of them are placed, on workers. |
| `EnoughRoom.ScalingWithRoom` | cluster/reconciler.py:191-221 | If it has room for the demand of all deployments together, no deployment misses anything after the pass. |
| `EnoughRoom.RoomIsSmooth` | cluster/reconciler.py:126-339 | Room for the demand, no stale node and an agent on every worker make a round smooth. |
| `EnoughRoom.TwoRoundsWithRoomConverge` | cluster/reconciler.py:126-339 | Two rounds converge from any state if before each of them some healthy worker has room for all that is missing. |
| `Agents.Agent.Create` | cluster/agent.py:260-305 | Seen through its reported rows, the agent does what the protocol says a create does; it returns without an error iff a running container under the new id is in its list, with the name, image, command and resources of the assignment. |
| `Agents.Agent.Configure` | cluster/agent.py:275-292 | The container is configured with the assignment's image, command and resources; its environment is the assignment's over the default path, and the node, service and deployment over that. |
| `Agents.Agent.Stop` | cluster/agent.py:307-327 | The same for a stop: the running container of that id leaves the list, or stays halted, or nothing happens. |
| `Agents.Agent.ExecuteAll` | cluster/agent.py:186-200 | The loop runs the batch in order; the ids returned are exactly those of the stops and of the creates that started their container. |
| `Agents.Agent.Report` | cluster/agent.py:202-230 | One row per container with name, status, time and the deployment the agent remembers; the load is the sum of the limits of the running ones. |
| `Agents.Agent.Restart` | cluster/agent.py:88-105 | A restarted agent reports its containers without their deployments. |
| `Agents.ExecutesLocally` | cluster/agent.py:246-258 | Executing on the whole cluster changes the agent's node as it would alone, and no other node. |
| `Agents.CycleIsARun` | cluster/agent.py:175-200 | The agent's execute step is a run of the protocol with the same containers and the same ids to acknowledge. |
| `Agents.RoundBatchIsAgentBatch` | cluster/agent.py:186-200 | The batches of the convergence rounds are agent batches in which everything succeeds and is acknowledged, whatever names the stops are given. |
| `Runs.PassIsARun` | cluster/reconciler.py:126-154 | A pass without interruption is a run of the protocol. |
| `Runs.TwoReplicasCanRun` | cluster/agent.py:175-200 | A run from the first start joins a node, deploys, reconciles, executes, acknowledges and reports two replicas. |
| `ClusterProtocol.PollsAndReports` | cluster/agent.py:202-244 | A poll hands out exactly what is pending for the node; a report holds exactly the rows of its engine; a report that is lost only disappears. |
| `ClusterProtocol.DeploymentChanges` | cluster/state.py:401-468 | Deploying, scaling and undeploying change exactly the rows of the service, in the machine too. |
| `ClusterProtocol.ExitsAndCrashes` | cluster/agent.py:88-105 | An exit stops the running container of that id; a crash takes away what the agent held and its memory of deployments; nothing else changes. |
| `RoundsAreRuns.WorkIsARun` | cluster/agent.py:175-200 | One agent's work in a round is a run: poll, executions under unused names, acknowledgements. |
| `RoundsAreRuns.RoundIsARun` | cluster/agent.py:175-200 | A whole round is a run of the protocol that ends with the round's tables and engines. |
| `RoundsAreRuns.ConvergenceIsARun` | cluster/reconciler.py:126-339 | From any world two smooth rounds are a run that ends in a converged cluster. |
| `Seccomp.BuildFilter` | engine/security.py:313-356 | The instruction list built in the loop is the compiled program; it kills exactly foreign architectures and watched calls, and allows the rest. |
| `Seccomp.ChecksMean` | engine/security.py:340-348 | From any comparison on, the outcome and the number of steps, for lists of any length. |
| `Seccomp.Rejoins` | engine/security.py:340-348 | Wherever a truncated jump lands, the entries still to be compared with include the same watched ones. |
| `Seccomp.FilterMeaning` | engine/security.py:313-356 | For every list and every call: KILL iff the architecture is not x86_64 or the call is among the last 255 entries, else ALLOW, within length + 4 steps. |
| `Seccomp.JumpsInside` | engine/security.py:285-356 | All jumps go forward and stay inside the program, for lists of any length. |
| `Seccomp.BlocksTheListIff` | engine/security.py:285-356 | The program blocks exactly the list iff every entry occurs among the last 255. |
| `Seccomp.ShortListsAreBlocked` | engine/security.py:285-356 | Up to 255 entries the program blocks exactly the list. |
| `Seccomp.TheBoundIsTight` | engine/security.py:285-292 | With 256 entries the first one is allowed. |
| `Seccomp.ShippedFilter` | engine/security.py:233-282 | The shipped list is blocked exactly. |
| `StartOrder.Walk.Visit` | orchestrator/manifest.py:150-168 | A successful visit extends a grounded order by the service; a circular error names a service on a real cycle, an unknown error a real dangling dependency. |
| `StartOrder.GetStartOrder` | orchestrator/manifest.py:140-173 | Succeeds iff every dependency exists and the graph has no cycle; the order is a permutation with dependencies first; errors are real. |
| `StartOrder.CycleOnPath` | orchestrator/manifest.py:153-156 | Meeting a service that is being visited closes a cycle. |
| `StartOrder.NeededComesBefore` | orchestrator/manifest.py:140-173 | Everything a service needs, directly or through others, comes before it. |
| `StartOrder.OrderedIsSound` | orchestrator/manifest.py:140-173 | An order exists only if every name is known and nothing needs itself. |
| `StartOrder.StopsBeforeWhatItNeeds` | orchestrator/compose.py:136-142 | In the reverse order a service stops before anything it needs. |
| `StartOrder.BuildManifest` | orchestrator/manifest.py:206-244 | A manifest is accepted iff its version is supported, it has services, all dependencies exist, all fields are in range and there is no cycle; each error says which failed. |
| `ComposeEngine.Engine.CreateInstance` | orchestrator/compose.py:203-264 | A new serial, the index asked for, and state and container as its creation goes, for each of three outcomes. |
| `ComposeEngine.Engine.IndexOf` | orchestrator/compose.py:419-425 | The first position of an equal element. |
| `ComposeEngine.Engine.RestartInstance` | orchestrator/compose.py:405-425 | The instance is replaced where it stands by a new one of the same index, one restart later. |
| `ComposeEngine.Engine.CheckInstances` | orchestrator/compose.py:342-371 | Walking the list while replacing in it gives the list checked instance by instance. |
| `ComposeEngine.Engine.ScaleUp` | orchestrator/compose.py:373-386 | Appends instances with the indices from the running count up to the replicas and new serials in order. |
| `ComposeEngine.Engine.StopAndRemove` | orchestrator/compose.py:395-400 | Stops one instance and removes that one. |
| `ComposeEngine.Engine.ScaleDown` | orchestrator/compose.py:388-402 | Walking backwards while removing takes away the last active instances. |
| `ComposeEngine.Engine.ReconcileService` | orchestrator/compose.py:339-403 | The pass for one service; other lists are untouched. |
| `ComposeEngine.Engine.Reconcile` | orchestrator/compose.py:336-403 | The pass over all services; afterwards no service exceeds what it wants, and all are quiet if all creations succeed. |
| `ComposeEngine.Engine.StartService` | orchestrator/compose.py:181-201 | Running replicas are left, others replaced where they stand, missing ones appended. |
| `ComposeEngine.Engine.Up` | orchestrator/compose.py:98-127 | Succeeds iff there is a start order, else nothing changes. If its creations succeed, every index of every service has a running replica; what was running is untouched; lists of other services stay; what a service needs is created before it. |
| `ComposeEngine.Engine.Down` | orchestrator/compose.py:129-143 | In the reverse of a start order, instance by instance; afterwards the list of every service is empty and other lists are kept; nothing is stopped when there is no order. |
| `ComposeEngine.Engine.StopService` | orchestrator/compose.py:266-297 | Stops the instances of one service in list order and empties its list. |
| `ComposeEngine.Engine.Scale` | orchestrator/compose.py:170-179 | Only the wanted number changes; an unknown service is refused. |
| `ComposeProperties.RestartsInPlace` | orchestrator/compose.py:342-371 | Every instance keeps its place and index; exactly those the policy names are replaced, with one more restart. |
| `ComposeProperties.TrimKeepsTheFirst` | orchestrator/compose.py:388-402 | Scaling down keeps the first active instances, in order and as many as wanted, and every inactive one. |
| `ComposeProperties.PassReachesReplicas` | orchestrator/compose.py:336-403 | After a pass at most the wanted number is active, and exactly that number iff every instance it added for scaling started. |
| `ComposeProperties.PassDoesNothingIff` | orchestrator/compose.py:336-403 | A pass changes nothing iff the wanted number is active and no restart is due. |
| `ComposeProperties.SecondPassDoesNothingIff` | orchestrator/compose.py:336-403 | A second pass changes nothing iff every creation of the first one, for a restart or for scaling, started. |
| `ComposeProperties.FailedRestartLeavesWork` | orchestrator/compose.py:342-386 | A crashed instance whose restart fails: after the pass the wanted number runs, and a second pass still acts. |
| `ComposeProperties.OnePassIsEnough` | orchestrator/compose.py:336-403 | If all creations succeed, the wanted number runs and the second pass changes nothing. |
| `ComposeCrashes.CrashIsRestartedIff` | orchestrator/compose.py:342-371 | In any list, any running instance whose container has ended: replaced, one restart later, iff the policy is "always"; under any other its row becomes STOPPED and stays in place. |
| `ComposeCrashes.ReplacedIff` | orchestrator/compose.py:353-371 | In any list, any instance: replaced, one restart later, iff it is in ERROR or UNHEALTHY under "always" or "on-failure", or stopped or crashed under "always". |
| `ComposeCrashes.PassAccountsForCrashes` | orchestrator/compose.py:342-403 | After a pass under "always" no row is STOPPED; under any other policy exactly one more for each crash. |
| `ComposeCrashes.EveryCrashLeavesARow` | orchestrator/compose.py:342-403 | Over any number of passes without "always", whatever ends in between and however the service is scaled: one STOPPED row more for every crash. |
| `ComposeCrashes.StoppedRowStays` | orchestrator/compose.py:342-403 | And each of these rows stays as it is through all of them. |
| `ComposeCrashes.CrashLeavesOneDeadRow` | orchestrator/compose.py:342-386 | One crash in a quiet list under such a policy: the pass leaves exactly its STOPPED row in place and one new instance, of the last index, at the end. |
| `ComposeCrashes.OnFailureDoesNotRestart` | orchestrator/compose.py:358-362 | A list of one crashed instance under "on-failure": the pass leaves it STOPPED and adds a second one. |
| `ComposeProperties.EveryServiceIsReconciled` | orchestrator/compose.py:339-403 | In a whole pass each service's list is handled once and depends on no other list. |
| `ComposeProperties.WholePass` | orchestrator/compose.py:336-403 | After a whole pass no service exceeds what it wants; if all creations succeed every service has it and is quiet. |
| `ComposeProperties.SecondWholePassDoesNothing` | orchestrator/compose.py:336-403 | If all creations succeed, a second whole pass leaves the engine as it is. |
| `ComposeProperties.StartKeepsRunning` | orchestrator/compose.py:181-201 | A start never touches the running replica of any index. |
| `ComposeProperties.StartRunsEveryIndex` | orchestrator/compose.py:181-201 | If its creations succeed, a start leaves a running replica for every index below the number. |
| `ComposeStart.UpRunsEverything` | orchestrator/compose.py:110-116 | Over all services of a start order: if the creations succeed, every index below the replicas of every service has a running replica. |
| `ComposeStart.UpKeepsRunning` | orchestrator/compose.py:181-201 | No replica that is running is touched, in any list. |
| `ComposeStart.NeededStartsFirst` | orchestrator/compose.py:108-116 | Whatever is created for a service is created after everything created for what it needs, directly or through others. |
| `ComposeProperties.DependentsStopFirst` | orchestrator/compose.py:129-143 | In the stops of a `down` all instances of a service come before all instances of what it needs. |
| `StopRace.FinalizeKeepsGuarded` | engine/container.py:554-568 | Every step inside the finalisation, by any thread, keeps the order reap, finalise, STOPPED, no pid, release. |
| `StopRace.StepKeepsSound` | engine/container.py:340-415 | Every step of the monitor, of any stop or destroy call and of the child keeps the invariant. |
| `StopRace.NothingTwice` | engine/container.py:494-568 | In every interleaving the child is reaped at most once, the finalisation body runs at most once and only after the reap, and STOPPED or a missing pid is only seen after both. |
| `StopRace.AllDoneIsStopped` | engine/container.py:340-415 | When all threads have finished the child has been reaped exactly once, the body has run exactly once, and the container is STOPPED without a pid. |
| `StopRace.EndedAfterStop` | engine/container.py:390-415 | In every interleaving a stop or destroy call that has got past the finalisation, its own or another's, leaves a child reaped once and the container STOPPED: destroy never takes the resources of a container that runs. |
| `StopRace.NoDeadlock` | engine/container.py:340-415 | Until all threads are done some thread can take a step, unless all that is left is to wait for a child that has been killed. |
| `StopRace.EveryThreadEnds` | engine/container.py:340-415 | Once the child has ended, the monitor and every caller end after a bounded number of their own steps in every interleaving. |
| `StopRace.KillsAfterTheGracePeriod` | engine/container.py:356-378 | A caller comes to kill the child only after it has found it alive as many times as its call said, 50 times for destroy. |
| `StopRace.StopTellsTheMonitor` | engine/container.py:343-346 | In every interleaving whoever waits for the child on behalf of a stop has set the stop event before. |
| `StopRace.MonitorStaysAway` | engine/container.py:494-530 | Once the event is set, a monitor that is not just about to look at the child never looks at it again. |
| `StopRace.LateCallsDoNothing` | engine/container.py:340-341 | A stop or destroy that finds the container stopped neither signals nor waits for the child, in any interleaving. |
| `StopRace.MonitorFinishesAlone` | engine/container.py:494-568 | A run in which the child exits on its own and the monitor alone reaps it, finalises and ends. |
| `AdmissionLimit.StepKeepsLimitIff` | engine/container.py:718-746 | A step keeps the limit iff it is not a working start of an inactive container while the limit is reached. |
| `AdmissionLimit.LimitHolds` | engine/container.py:718-746 | With starts only of newly created containers, active containers never exceed the limit, in every interleaving from an empty registry. |
| `AdmissionLimit.TurnedAwayIffFull` | engine/container.py:718-746 | Both checks turn a creator away iff as many containers as allowed are newly created or running; else it goes on, and is registered at the second. |
| `AdmissionLimit.Creation` | engine/container.py:718-746 | From any reachable state below the limit, a creator that is not disturbed ends with its container registered. |
| `AdmissionLimit.EveryStepCounts` | engine/container.py:718-800 | By how much each step changes the number of newly created and running containers: exactly, for every step. |
| `AdmissionLimit.EntryAfter` | engine/container.py:748-800 | What a start that works or fails, a stop, a destroy and an unregistering make of the entry; a creator whose building fails builds nothing. |
| `AdmissionLimit.RestartBreaksTheLimit` | engine/container.py:748-762 | A run with limit one that ends with two running containers, by starting a stopped one again. |
| `AdmissionLimit.NothingLeftBehind` | engine/container.py:736-744 | In every interleaving each container built is in one creator's hand, registered or destroyed; a creator refused at the second check has destroyed its own. |
| `LogBuffer.Buffer.AppendLog` | engine/container.py:458-467 | The buffer after an append is the buffer of the log with that line. |
| `LogBuffer.Buffer.GetLogs` | engine/container.py:444-456 | A tail of at most 5000 lines is exactly the end of the whole log. |
| `LogBuffer.BufferIsSuffix` | engine/container.py:458-467 | After n appends the buffer is the suffix of the log of length n, or 5000 + (n - 10001) mod 5001 beyond 10000. |
| `LogBuffer.TailExactIff` | engine/container.py:444-467 | A tail of k lines is that of the whole log iff the buffer still holds k lines or the log never overflowed. |
| `PortForward.PortForwarder.AddRule` | cluster/portforward.py:64-132 | The three commands in order; a refused one raises and leaves those before it and no mapping; a missing program is passed over and the mapping recorded. |
| `PortForward.PortForwarder.RemoveRule` | cluster/portforward.py:134-173 | Each command that takes effect removes one matching rule; the mapping goes whatever the commands did. |
| `PortForward.PortForwarder.RemoveAllForContainer` | cluster/portforward.py:175-197 | However the commands go, the container's mappings leave the list, the others stay in order and the count is right; agreement is kept iff every command works. |
| `PortForward.AddKeepsAgreementIff` | cluster/portforward.py:97-132 | An addition keeps list and chains in agreement iff all three commands took effect, or one was refused before any did. |
| `PortForward.RemoveKeepsAgreement` | cluster/portforward.py:134-173 | Removing an active mapping keeps the agreement, also when rules of different mappings coincide. |
| `PortForward.RemoveActiveKeepsIff` | cluster/portforward.py:134-173 | Removing an active mapping keeps it iff all three commands took effect. |
| `PortForward.RemoveInactiveKeepsIff` | cluster/portforward.py:134-173 | Removing a mapping that is not active keeps it iff no command that works finds such a rule in its chain, for all results of the three. |
| `PortForward.RemoveAllKeepsIff` | cluster/portforward.py:175-197 | Removing a container's mappings keeps it iff all commands of all its removals take effect: no later removal makes a rule left behind good. |
| `PortForward.RemovesTheContainer` | cluster/portforward.py:175-197 | Exactly the mappings of the other containers remain, however the commands go. |
| `PortForward.OthersKeepTheirRules` | cluster/portforward.py:175-197 | However the commands go, every chain keeps its first content and the rules of the remaining mappings, as often as needed; nothing else if all work. |
| `PortForward.RefusedAdditionLeavesARule` | cluster/portforward.py:97-132 | From a new forwarder: a first command that works and a second that is refused leave a PREROUTING rule and no mapping. |
| `PortForward.AdditionWithoutRules` | cluster/portforward.py:97-132 | From a new forwarder: without an iptables program a mapping is recorded that has no rules. |
| `PortForward.RefusedRemovalLeavesARule` | cluster/portforward.py:134-173 | From a new forwarder: a removal whose last command is refused forgets the mapping and leaves its PREROUTING rule. |
| `PortForward.RemovalTakesAnothersRules` | cluster/portforward.py:134-173 | From a new forwarder and empty chains: after one addition, removing a mapping of the same fields under another container leaves the added one active without any rule. |
| `PortForward.EveryRunAgrees` | cluster/portforward.py:64-197 | In every run each chain is, as a multiset, its first content plus the rules of the active mappings. |
| `PortForward.NothingLeftOver` | cluster/portforward.py:64-197 | When no mapping is active any more the chains hold what they held at first. |
| `PortForward.PacketGoesWhereMapped` | cluster/portforward.py:86-117 | In chains that agree with the list, a packet to a host port is sent to the container and port of an active mapping of that protocol and port, or nowhere iff there is none. |
| `PortForward.PortReachesContainer` | cluster/portforward.py:64-197 | In every run packets to a mapped host port, from outside and from the host, reach the container address and port it is mapped to, and may be forwarded. |
| `RateLimit.Limiter.CheckRateLimit` | api/routes/suggestions.py:32-45 | The table after the call, the decision, and that no other client is affected. |
| `RateLimit.SubmitKeepsFaithful` | api/routes/suggestions.py:32-45 | Pruning forgets nothing that any later decision would count. |
| `RateLimit.RefusedIffFiveRecent` | api/routes/suggestions.py:39-45 | A request is refused iff at least five of the client were accepted less than 300 s ago. |
| `RateLimit.EveryRunIsLimited` | api/routes/suggestions.py:27-45 | For any requests in time order: no window shorter than 300 s holds more than five accepted of one client, and the next is refused iff five are recent. |
| `RateLimit.TableStaysSmall` | api/routes/suggestions.py:32-45 | The table never holds more than five times per client. |
| `HealthStatus.HealthChecker.RunLoop` | orchestrator/health.py:111-150 | The loop computes status, results and callbacks of the history: UNHEALTHY iff enough last checks failed, else HEALTHY iff one has passed. |
| `HealthStatus.StatusByHistory` | orchestrator/health.py:127-135 | The status as a property of the whole history, for any setting of retries (one failure is the least that counts). |
| `HealthStatus.ResultsByHistory` | orchestrator/health.py:120-124 | The results kept are the last fifty. |
| `HealthStatus.CallbacksAreTheChanges` | orchestrator/health.py:137-146 | One callback at each change of status, with the new status, in order, and none besides. |
| `HealthStatus.CallbacksAlternate` | orchestrator/health.py:137-146 | Callbacks alternate between HEALTHY and UNHEALTHY and the last one names the status. |

## Left out

- Logging, cluster events, summaries, statistics, listings and the other read-only views.
- SQLite, HTTP, subprocesses, signals, threads as such: a transaction is one atomic step, a request or a command is a step with its outcome as a parameter, a thread is a step machine.
- Clocks: a time is a real number given to the operation that reads the clock. A pass reads it once; the source reads it again for each row it writes, which only moves `created_at`.
- Identifiers: an assignment token is the next number and a container id is one not in use, in place of random hexadecimal strings that are taken to be unique; the random part of a container's name is its id.
- ISO strings as start times, and their mixing with numbers when sorted: start times are reals.
- Floating-point rounding in scores: scores are reals.
- In the interleaved protocol the container snapshot, the deployment list and the list of live deployments are read in steps of their own; the pending count and the choice of victims of one deployment are one step, as are the choice, the assignment and the reservation of one replica, and the master's own heartbeat with the search for stale nodes; reports arriving between those statements are not modelled.
- The id returned by a repeated deployment of a service: the row keeps its first id, as in the source; the caller's copy with a new id is not modelled, nor are rolling deployments (`cluster/deploy.py`).
- Port forwarding inside an agent's create and stop: `PortForward` models the forwarder on its own; the agent's calls to it, whose failures it ignores, are not joined with the protocol.
- PortForward.EveryRunAgrees: on a host where the commands work; what commands that fail do is stated for each operation. A command that times out is not modelled.
- ComposeCrashes.StoppedRowStays: for a service without a health check; the callback of a health checker may set a STOPPED instance to UNHEALTHY between passes, which `on-failure` does restart.
- StopRace.AllDoneIsStopped: starts from the return of `start`; a stop that slips in while `start` is still resetting its flags, a reuse of the pid by the system, the exit code (which several threads write), the state file and what `destroy` cleans up after the threads have been joined are not modelled. Waiting for the monitor has a timeout in the source and is a step that may end at any time here.
- AdmissionLimit.LimitHolds: loading persisted containers at start-up is not modelled; the registry starts empty.
- Seccomp.FilterMeaning: the kernel's own limit on the length of programs and the 16-bit length field are not modelled, nor are capabilities and the installing of the filter.
- StartOrder.GetStartOrder: Python's recursion limit is not modelled; parsing of YAML is left out, a manifest is the dictionary of its services in insertion order.
- ComposeEngine.Engine.Reconcile: instances are values whose serial stands for the identity of the object; the source compares all fields, among them a creation time, so that equal but different instances are not expected there either. Whether a container is alive is read once per instance and pass; a container that ends later in the pass ends after it here. The health callback, which moves instances between RUNNING and UNHEALTHY between passes, is not a method here; the theorems start from any states it may have left.
- RateLimit.EveryRunIsLimited: for a clock that does not go back, as the promise needs; the source's clock may be set back.
- HealthStatus.HealthChecker.RunLoop: the start period, the interval, the probes and an exception in a callback, which is ignored, are left out; the list of callbacks is what a callback would be called with.
- Agents.Agent.Create: a create that starts a container and fails afterwards is not distinguished from one that fails to start.
- What a compose instance is given to run (image, command, environment): a service here has the fields its checks, order and scaling look at.
- Networking, image pulls, overlay file systems, namespaces, cgroups, metrics, the virtual machine back end, the command line and the dashboard.
