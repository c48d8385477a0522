/**
 The whole cluster as a state machine: the master's tables, the pass that may be
 under way, every node's agent and engine, and the requests that have been sent.

 A sent report stays deliverable until it is lost, so it may arrive late, more than
 once, after a newer one, or never; an acknowledgement at any later time or never.
 */
module ClusterProtocol {
  import opened Seqs
  import opened Tables
  import opened Reconciliation
  import opened PassMachine

  datatype Report = Report(node: Id, rows: seq<ContainerRecord>, cpu: int, memory: int)

  /** What an agent holds between a poll and the acknowledgement. */
  datatype AgentState = AgentState(batch: seq<Assignment>, completed: seq<nat>)

  datatype World = World(
    master: Id,
    t: Tables,
    pass: PassState,
    engines: seq<ContainerRecord>,   // what the engines of all nodes hold
    agents: map<Id, AgentState>,
    reports: set<Report>,
    acks: set<nat>,
    executed: set<nat>)           // creates that have started their container, stops that have been tried

  /** How far the engine got with an assignment. */
  datatype Outcome = Done | HalfDone | Failed

  datatype Event =
    | BeginPass(now: Time, tick: nat)
    | AdvancePass
    | AbortPass
    | Join(node: Id, address: string, cpu: int, memory: int, now: Time)
    | Leave(node: Id)
    | Deploy(dep: Deployment)
    | Rescale(service: string, replicas: int)
    | Undeploy(service: string)
    | SendReport(node: Id, cpu: int, memory: int)
    | DeliverReport(report: Report, now: Time)
    | LoseReport(report: Report)
    | Poll(node: Id)
    | Execute(node: Id, outcome: Outcome, newId: Id, now: Time)
    | SendAcks(node: Id)
    | DeliverAck(id: nat)
    | Exit(container: Id)
    | Crash(node: Id)

  // ---- The engine's side ---------------------------------------------------

  function NotStopped(n: Id, id: Id): ContainerRecord -> bool {
    (c: ContainerRecord) => !(c.nodeId == n && c.containerId == id && c.status.Running?)
  }

  function Halted(n: Id, id: Id): ContainerRecord -> ContainerRecord {
    (c: ContainerRecord) =>
      if c.nodeId == n && c.containerId == id && c.status.Running? then c.(status := Stopped) else c
  }

  function Exited(id: Id): ContainerRecord -> ContainerRecord {
    (c: ContainerRecord) => if c.containerId == id && c.status.Running? then c.(status := Stopped) else c
  }

  /** A restarted agent no longer knows which deployment its containers belong to. */
  function Forgotten(n: Id): ContainerRecord -> ContainerRecord {
    (c: ContainerRecord) => if c.nodeId == n then c.(deploymentId := "") else c
  }

  /** A container is named after its service; the id stands for the random part of the name as well. */
  function ContainerName(service: string, id: Id): string { service + "-" + id }

  /** A create that starts, one that leaves a container behind unstarted, one that fails. */
  function RunCreate(engines: seq<ContainerRecord>, n: Id, a: Assignment, outcome: Outcome, newId: Id, now: Time)
    : seq<ContainerRecord>
  {
    match outcome
    case Done => engines + [ContainerRecord(newId, n, a.deploymentId, ContainerName(a.serviceName, newId), Running, now)]
    case HalfDone => engines + [ContainerRecord(newId, n, "", ContainerName(a.serviceName, newId), Error, now)]
    case Failed => engines
  }

  /** A stop removes the container, or halts it without removing it, or does nothing. */
  function RunStop(engines: seq<ContainerRecord>, n: Id, a: Assignment, outcome: Outcome): seq<ContainerRecord> {
    if a.containerId == "" then engines
    else match outcome
      case Done => Filter(engines, NotStopped(n, a.containerId))
      case HalfDone => Map(engines, Halted(n, a.containerId))
      case Failed => engines
  }

  /** Errors of a stop are swallowed; an error of a create leaves the assignment undone. */
  predicate Completes(a: Assignment, outcome: Outcome) { a.action.Stop? || outcome.Done? }

  /** Seen from what the engines hold afterwards: the new container runs, for the deployment and service asked for. */
  predicate TookEffect(engines: seq<ContainerRecord>, n: Id, a: Assignment, newId: Id) {
    || a.action.Stop?
    || exists c ::
         && c in engines && c.containerId == newId && c.nodeId == n && c.status == Running
         && c.deploymentId == a.deploymentId && c.serviceName == ContainerName(a.serviceName, newId)
  }

  function RunAssignment(engines: seq<ContainerRecord>, n: Id, a: Assignment, outcome: Outcome, newId: Id, now: Time)
    : seq<ContainerRecord>
  {
    if a.action.Create? then RunCreate(engines, n, a, outcome, newId, now) else RunStop(engines, n, a, outcome)
  }

  // ---- The machine ---------------------------------------------------------

  predicate Enabled(w: World, e: Event) {
    match e
    case BeginPass(_, _) => w.pass.Idle?
    case AdvancePass => w.pass.Busy?
    case AbortPass => w.pass.Busy?
    case DeliverReport(r, _) => r in w.reports
    case LoseReport(r) => r in w.reports
    case Execute(n, _, newId, _) =>
      && n in w.agents && w.agents[n].batch != []
      && forall c :: c in w.engines ==> c.containerId != newId
    case SendAcks(n) => n in w.agents && w.agents[n].batch == []
    case DeliverAck(id) => id in w.acks
    case _ => true
  }

  function Proceed(w: World, c: Config): World { w.(t := c.t, pass := c.pass) }

  function Apply(w: World, e: Event): World
    requires Enabled(w, e)
  {
    match e
    case BeginPass(now, tick) => Proceed(w, Begin(w.t, w.master, now, tick))
    case AdvancePass => Proceed(w, Advance(Config(w.t, w.pass)))
    case AbortPass => w.(pass := Idle)
    case Join(n, address, cpu, memory, now) => w.(t := RegisterNode(w.t, n, address, Worker, cpu, memory, now))
    case Leave(n) => w.(t := RemoveNode(w.t, n))
    case Deploy(dep) => w.(t := CreateDeployment(w.t, dep))
    case Rescale(service, replicas) => w.(t := UpdateReplicas(w.t, service, replicas))
    case Undeploy(service) => w.(t := DeleteDeployment(w.t, service))
    case SendReport(n, cpu, memory) =>
      w.(reports := w.reports + {Report(n, Filter(w.engines, OnNode(n)), cpu, memory)})
    case DeliverReport(r, now) => w.(t := UpdateHeartbeat(w.t, r.node, r.rows, r.cpu, r.memory, now))
    case LoseReport(r) => w.(reports := w.reports - {r})
    case Poll(n) =>
      if Registered(w.t, n)
      then w.(agents := w.agents[n := AgentState(PendingAssignments(w.t, n), [])])
      else w
    case Execute(n, outcome, newId, now) =>
      var s := w.agents[n];
      var a := s.batch[0];
      var done := Completes(a, outcome);
      var engines := RunAssignment(w.engines, n, a, outcome, newId, now);
      w.(engines := engines,
         agents := w.agents[n := AgentState(s.batch[1..], if done then s.completed + [a.assignmentId] else s.completed)],
         executed := if TookEffect(engines, n, a, newId) then w.executed + {a.assignmentId} else w.executed)
    case SendAcks(n) =>
      w.(acks := w.acks + (set id | id in w.agents[n].completed),
         agents := w.agents[n := AgentState([], [])])
    case DeliverAck(id) => w.(t := AcknowledgeAssignment(w.t, id))
    case Exit(id) => w.(engines := Map(w.engines, Exited(id)))
    case Crash(n) => w.(agents := w.agents - {n}, engines := Map(w.engines, Forgotten(n)))
  }

  /** What a poll, a report and its loss do, and that they do nothing besides. */
  lemma PollsAndReports(w: World, n: Id, cpu: int, memory: int, r: Report)
    ensures Registered(w.t, n) ==>
      var v := Apply(w, Poll(n));
      && v == w.(agents := w.agents[n := v.agents[n]]) && v.agents[n].completed == []
      && forall a :: a in v.agents[n].batch <==> a in w.t.assignments && a.nodeId == n && !a.acknowledged
    ensures var v := Apply(w, SendReport(n, cpu, memory));
      exists x :: v == w.(reports := w.reports + {x}) && (x.node, x.cpu, x.memory) == (n, cpu, memory)
        && forall c :: c in x.rows <==> c in w.engines && c.nodeId == n
    ensures r in w.reports ==> Apply(w, LoseReport(r)) == w.(reports := w.reports - {r})
  {
    hide Advance, Begin, UpdateHeartbeat, RunAssignment, Registered;
    var x := Report(n, Filter(w.engines, OnNode(n)), cpu, memory);
    assert Apply(w, SendReport(n, cpu, memory)) == w.(reports := w.reports + {x});
  }

  /** What deploying, scaling and undeploying do to the rows, and that they do nothing besides. */
  lemma DeploymentChanges(w: World, dep: Deployment, service: string, replicas: int)
    ensures var v := Apply(w, Undeploy(service));
      && v == w.(t := w.t.(deployments := v.t.deployments))
      && forall d :: d in v.t.deployments <==> d in w.t.deployments && d.serviceName != service
    ensures var v := Apply(w, Rescale(service, replicas));
      && v == w.(t := w.t.(deployments := v.t.deployments)) && |v.t.deployments| == |w.t.deployments|
      && forall i :: 0 <= i < |w.t.deployments| ==>
           v.t.deployments[i] == if w.t.deployments[i].serviceName == service
                                 then w.t.deployments[i].(replicas := replicas) else w.t.deployments[i]
    ensures var v := Apply(w, Deploy(dep));
      && v == w.(t := w.t.(deployments := v.t.deployments))
      && (HasService(w.t, dep.serviceName) || dep.deploymentId !in DeploymentIds(w.t) ==>
            exists d :: d in v.t.deployments && d == dep.(deploymentId := d.deploymentId))
  {
    hide Advance, Begin, UpdateHeartbeat, RunAssignment;
    var v := Apply(w, Deploy(dep));
    if i :| 0 <= i < |w.t.deployments| && w.t.deployments[i].serviceName == dep.serviceName {
      assert v.t.deployments[i] == Redeploying(dep)(w.t.deployments[i]);
    } else if dep.deploymentId !in DeploymentIds(w.t) {
      assert v.t.deployments[|w.t.deployments|] == dep;
    }
  }

  /** What an exit and a crash do, and that they do nothing besides. */
  lemma ExitsAndCrashes(w: World, n: Id)
    ensures var v := Apply(w, Exit(n));
      && v == w.(engines := v.engines) && |v.engines| == |w.engines|
      && forall i :: 0 <= i < |w.engines| ==>
           v.engines[i] == if w.engines[i].containerId == n && w.engines[i].status == Running
                           then w.engines[i].(status := Stopped) else w.engines[i]
    ensures var v := Apply(w, Crash(n));
      && v == w.(engines := v.engines, agents := w.agents - {n}) && |v.engines| == |w.engines|
      && forall i :: 0 <= i < |w.engines| ==>
           v.engines[i] == if w.engines[i].nodeId == n then w.engines[i].(deploymentId := "") else w.engines[i]
  {
    hide Advance, Begin, UpdateHeartbeat, RunAssignment;
  }

  /** The cluster at first start: some nodes may be known, nothing else has happened. */
  predicate Initial(w: World) {
    && w.t.deployments == [] && w.t.containers == [] && w.t.assignments == []
    && w.pass.Idle? && w.engines == [] && w.agents == map[]
    && w.reports == {} && w.acks == {} && w.executed == {}
  }

  /** `es` can happen one after another from `w`, each of them permitted where it happens. */
  ghost predicate Legal(w: World, es: seq<Event>, permitted: (World, Event) -> bool)
    decreases |es|
  {
    es == [] || (Enabled(w, es[0]) && permitted(w, es[0]) && Legal(Apply(w, es[0]), es[1..], permitted))
  }

  function Play(w: World, es: seq<Event>, ghost permitted: (World, Event) -> bool): World
    requires Legal(w, es, permitted)
    decreases |es|
  {
    if es == [] then w else Play(Apply(w, es[0]), es[1..], permitted)
  }

  /** Whatever every permitted event keeps, every run keeps. */
  lemma {:induction false} RunInduction(
    w: World, es: seq<Event>, permitted: (World, Event) -> bool, inv: World -> bool)
    requires Legal(w, es, permitted) && inv(w)
    requires forall v: World, e: Event :: inv(v) && Enabled(v, e) && permitted(v, e) ==> inv(Apply(v, e))
    ensures inv(Play(w, es, permitted))
    decreases |es|
  {
    hide Apply, Enabled;
    if es != [] {
      assert Enabled(w, es[0]) && permitted(w, es[0]);
      RunInduction(Apply(w, es[0]), es[1..], permitted, inv);
    }
  }

  function Anything(): (World, Event) -> bool { (w: World, e: Event) => true }

  /** Some run leads from `w` to `v`. */
  ghost predicate Reaches(w: World, v: World) {
    exists es :: Legal(w, es, Anything()) && Play(w, es, Anything()) == v
  }

  lemma {:induction false} RunsJoin(
    w: World, es: seq<Event>, fs: seq<Event>, permitted: (World, Event) -> bool)
    requires Legal(w, es, permitted) && Legal(Play(w, es, permitted), fs, permitted)
    ensures Legal(w, es + fs, permitted)
    ensures Play(w, es + fs, permitted) == Play(Play(w, es, permitted), fs, permitted)
    decreases |es|
  {
    hide Apply, Enabled;
    if es == [] {
      assert es + fs == fs;
    } else {
      assert (es + fs)[1..] == es[1..] + fs;
      RunsJoin(Apply(w, es[0]), es[1..], fs, permitted);
    }
  }

  lemma ReachesItself(w: World)
    ensures Reaches(w, w)
  {
    assert Legal(w, [], Anything()) && Play(w, [], Anything()) == w;
  }

  lemma ReachesOn(u: World, v: World, w: World)
    requires Reaches(u, v) && Reaches(v, w)
    ensures Reaches(u, w)
  {
    var es :| Legal(u, es, Anything()) && Play(u, es, Anything()) == v;
    var fs :| Legal(v, fs, Anything()) && Play(v, fs, Anything()) == w;
    hide Legal, Play;
    RunsJoin(u, es, fs, Anything());
  }

  lemma {:induction false} ReachesNext(w: World, v: World, e: Event)
    requires Reaches(w, v) && Enabled(v, e)
    ensures Reaches(w, Apply(v, e))
  {
    hide Apply, Enabled;
    assert Legal(v, [e], Anything()) && Play(v, [e], Anything()) == Apply(v, e) by {
      assert [e][1..] == [];
    }
    ReachesOn(w, v, Apply(v, e));
  }
}
