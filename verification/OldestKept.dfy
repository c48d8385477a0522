/**
 Scaling down is safe under delay.

 Fix a deployment with r replicas and k <= r of its running containers that were
 started before all its other running ones.  However passes, late reports, creates, stops and
 acknowledgements interleave, no stop is ever issued for one of the k, so at least k
 replicas keep running.  With k = r these are the r oldest.
 */
module OldestKept {
  import opened Seqs
  import opened Tables
  import opened StateStore
  import opened Reconciliation
  import opened PassMachine
  import opened ClusterProtocol
  import Scheduling
  import PassIdempotence
  import AgentRound
  import opened Runs

  /** The deployment, its replica count, the protected containers with their nodes, the latest of their start times. */
  datatype Guard = Guard(d: Id, replicas: nat, home: map<Id, Id>, cutoff: Time)

  /** What a row, wherever it is, says about a protected or another container. */
  ghost predicate RowOk(g: Guard, c: ContainerRecord) {
    if c.containerId in g.home
    then c.deploymentId == g.d && c.status.Running? && c.startedAt <= g.cutoff
         && c.nodeId == g.home[c.containerId]
    else c.deploymentId == g.d && c.status.Running? ==> c.startedAt > g.cutoff
  }

  ghost predicate RowsOk(g: Guard, rows: seq<ContainerRecord>) { forall c :: c in rows ==> RowOk(g, c) }

  ghost predicate Shows(rows: seq<ContainerRecord>, id: Id) {
    exists c :: c in rows && c.containerId == id
  }

  ghost predicate ShowsAll(g: Guard, rows: seq<ContainerRecord>) {
    forall id :: id in g.home ==> Shows(rows, id)
  }

  ghost predicate ShowsAllOn(g: Guard, n: Id, rows: seq<ContainerRecord>) {
    forall id :: id in g.home && g.home[id] == n ==> Shows(rows, id)
  }

  predicate SparesThem(g: Guard, a: Assignment) { a.action.Stop? ==> a.containerId !in g.home }

  predicate AsksRight(g: Guard, ds: seq<Deployment>) {
    forall d :: d in ds && d.deploymentId == g.d ==> d.replicas == g.replicas
  }

  ghost function TableOk(g: Guard): Tables -> bool {
    (t: Tables) =>
      && RowsOk(g, t.containers) && ShowsAll(g, t.containers)
      && DistinctBy(t.containers, ContainerIdOf())
      && AsksRight(g, t.deployments) && g.d in DeploymentIds(t)
      && PendingCreates(t, g.d) + |g.home| <= g.replicas
      && (forall a :: a in t.assignments ==> SparesThem(g, a))
  }

  ghost predicate SnapshotOk(g: Guard, rows: seq<ContainerRecord>) {
    RowsOk(g, rows) && ShowsAll(g, rows) && DistinctBy(rows, ContainerIdOf())
  }

  ghost predicate NotHome(g: Guard, n: Id) { forall id :: id in g.home ==> g.home[id] != n }

  ghost predicate PassOk(g: Guard, t: Tables, p: PassState) {
    p.Busy? ==> match p.stage
      case Marking(_, unhealthy) => forall n :: n in unhealthy ==> NotHome(g, n)
      case Failing(nodes) => forall n :: n in nodes ==> NotHome(g, n)
      case Losing(rows, nodes) =>
        && (forall n :: n in nodes ==> NotHome(g, n))
        && (forall r :: r in rows ==> r.containerId !in g.home)
      case Listing(snapshot) => SnapshotOk(g, snapshot)
      case Scaling(snapshot, todo) => SnapshotOk(g, snapshot) && AsksRight(g, todo)
      case Placing(d, left, snapshot, todo) =>
        && SnapshotOk(g, snapshot) && AsksRight(g, todo)
        && (d.deploymentId == g.d ==> PendingCreates(t, g.d) + left + |g.home| <= g.replicas)
      case Stopping(_, victims, snapshot, todo) =>
        && SnapshotOk(g, snapshot) && AsksRight(g, todo)
        && (forall v :: v in victims ==> v.containerId !in g.home)
      case Reaping(rows, live) => RowsOk(g, rows) && g.d in live
  }

  ghost predicate ReportOk(g: Guard, r: Report) {
    && RowsOk(g, r.rows) && ShowsAllOn(g, r.node, r.rows)
    && forall c :: c in r.rows ==> c.nodeId == r.node
  }

  ghost predicate Kept(g: Guard, w: World) {
    && g.d != ""
    && TableOk(g)(w.t) && PassOk(g, w.t, w.pass)
    && RowsOk(g, w.engines) && ShowsAll(g, w.engines)
    && (forall r :: r in w.reports ==> ReportOk(g, r))
    && (forall n, a :: n in w.agents && a in w.agents[n].batch ==> SparesThem(g, a))
  }

  /**
   What the guarded deployment asks of its surroundings: the nodes of the protected
   containers neither leave, nor time out, nor restart their agent; the containers do
   not exit by themselves; the deployment is not changed; a new container starts later.
   */
  ghost predicate Undisturbed(g: Guard, w: World, e: Event) {
    match e
    case BeginPass(now, _) =>
      forall n :: n in StaleNodes(KeepMasterAlive(w.t, w.master, now), now) ==> NotHome(g, n)
    case Leave(n) => NotHome(g, n)
    case Crash(n) => NotHome(g, n)
    case Exit(id) => id !in g.home
    case Deploy(dep) => AsksRight(g, CreateDeployment(w.t, dep).deployments)
    case Rescale(service, replicas) => AsksRight(g, UpdateReplicas(w.t, service, replicas).deployments)
    case Undeploy(service) => g.d in DeploymentIds(DeleteDeployment(w.t, service))
    case Execute(_, _, _, now) => now > g.cutoff
    case _ => true
  }

  ghost function Peaceful(g: Guard): (World, Event) -> bool { (w: World, e: Event) => Undisturbed(g, w, e) }

  // ---- A stop never hits the oldest ----------------------------------------

  function NotAfter(cutoff: Time): ContainerRecord -> bool { (c: ContainerRecord) => c.startedAt <= cutoff }

  /** The protected rows are at most |home|, the running rows at least as many. */
  lemma {:induction false} RunningRowsBounds(g: Guard, snapshot: seq<ContainerRecord>)
    requires SnapshotOk(g, snapshot)
    ensures Count(snapshot, RunningOf(g.d)) >= |g.home|
    ensures Count(Filter(snapshot, RunningOf(g.d)), NotAfter(g.cutoff)) <= |g.home|
  {
    var running := Filter(snapshot, RunningOf(g.d));
    forall id | id in g.home.Keys
      ensures exists c :: c in snapshot && RunningOf(g.d)(c) && ContainerIdOf()(c) == id
    {
      assert Shows(snapshot, id);
      var c :| c in snapshot && c.containerId == id;
      assert RowOk(g, c);
      assert RunningOf(g.d)(c) && ContainerIdOf()(c) == id;
    }
    CountCovers(snapshot, RunningOf(g.d), ContainerIdOf(), g.home.Keys);
    FilterDistinct(snapshot, RunningOf(g.d), ContainerIdOf());
    forall c | c in running && NotAfter(g.cutoff)(c) ensures ContainerIdOf()(c) in g.home.Keys {
      assert c in snapshot && RunningOf(g.d)(c) && RowOk(g, c);
    }
    CountWithin(running, NotAfter(g.cutoff), ContainerIdOf(), g.home.Keys);
    assert |g.home.Keys| == |g.home|;
  }

  /** In a descending order whatever stands behind a row not after the cutoff is not after it. */
  lemma {:induction false} TailIsOlder(s: seq<ContainerRecord>, i: nat, cutoff: Time)
    requires Descending(s, StartedAtOf()) && i < |s| && s[i].startedAt <= cutoff
    ensures Count(s, NotAfter(cutoff)) >= |s| - i
  {
    var n := |s| - 1;
    assert StartedAtOf()(s[i]) >= StartedAtOf()(s[n]) by {
      if i < n { assert Descending(s, StartedAtOf()); }
    }
    if i < n {
      TailIsOlder(s[..n], i, cutoff);
    }
  }

  /** Stopping the newest so many leaves the oldest: the protected rows are not among the victims. */
  lemma VictimsAreNewer(g: Guard, snapshot: seq<ContainerRecord>, count: nat)
    requires SnapshotOk(g, snapshot)
    requires count + |g.home| <= Count(snapshot, RunningOf(g.d))
    ensures forall v :: v in Victims(Filter(snapshot, RunningOf(g.d)), count) ==> v.containerId !in g.home
  {
    var running := Filter(snapshot, RunningOf(g.d));
    var sorted := SortDesc(running, StartedAtOf());
    SortDescSorts(running, StartedAtOf());
    RunningRowsBounds(g, snapshot);
    VictimsAreRunning(running, count);
    forall v | v in Victims(running, count) ensures v.containerId !in g.home {
      assert v in snapshot && RowOk(g, v);
      var i :| 0 <= i < |Victims(running, count)| && Victims(running, count)[i] == v;
      assert i < count && sorted[i] == v;
      if v.containerId in g.home {
        TailIsOlder(sorted, i, g.cutoff);
        CountPermuted(sorted, running, NotAfter(g.cutoff));
      }
    }
  }

  lemma VictimsSize(running: seq<ContainerRecord>, count: nat)
    ensures |Victims(running, count)| == if count < |running| then count else |running|
  {
    SortDescSorts(running, StartedAtOf());
  }

  /** A protected container that is not stopped is among the rows left. */
  lemma {:induction false} LeftRow(
    g: Guard, snapshot: seq<ContainerRecord>, victims: seq<ContainerRecord>, rest: seq<ContainerRecord>, id: Id)
    requires SnapshotOk(g, snapshot) && id in g.home
    requires multiset(victims + rest) == multiset(Filter(snapshot, RunningOf(g.d)))
    requires forall v :: v in victims ==> v.containerId !in g.home
    ensures exists c :: c in rest && RunningOf(g.d)(c) && ContainerIdOf()(c) == id
  {
    var running := Filter(snapshot, RunningOf(g.d));
    assert Shows(snapshot, id);
    var c :| c in snapshot && c.containerId == id;
    assert RowOk(g, c) && RunningOf(g.d)(c);
    assert c in multiset(running);
    hide Filter, SnapshotOk;
    assert c in victims + rest;
    assert c in rest && ContainerIdOf()(c) == id;
  }

  /** What is not stopped. */
  lemma LeftRows(running: seq<ContainerRecord>, count: nat) returns (rest: seq<ContainerRecord>)
    ensures multiset(Victims(running, count) + rest) == multiset(running)
    ensures |Victims(running, count)| + |rest| == |running|
  {
    var sorted := SortDesc(running, StartedAtOf());
    SortDescSorts(running, StartedAtOf());
    rest := sorted[|Victims(running, count)|..];
    assert sorted == Victims(running, count) + rest;
  }

  lemma EnoughLeft(g: Guard, snapshot: seq<ContainerRecord>, victims: seq<ContainerRecord>, rest: seq<ContainerRecord>)
    requires SnapshotOk(g, snapshot)
    requires multiset(victims + rest) == multiset(Filter(snapshot, RunningOf(g.d)))
    requires forall v :: v in victims ==> v.containerId !in g.home
    ensures |g.home| <= |rest|
  {
    hide SnapshotOk, Filter;
    forall id | id in g.home.Keys
      ensures exists c :: c in rest && RunningOf(g.d)(c) && ContainerIdOf()(c) == id
    {
      LeftRow(g, snapshot, victims, rest, id);
    }
    CountCovers(rest, RunningOf(g.d), ContainerIdOf(), g.home.Keys);
    CountAtMost(rest, RunningOf(g.d));
    assert |g.home.Keys| == |g.home|;
  }

  lemma {:induction false} SparedAreLeft(g: Guard, snapshot: seq<ContainerRecord>, count: nat)
    requires SnapshotOk(g, snapshot)
    requires forall v :: v in Victims(Filter(snapshot, RunningOf(g.d)), count) ==> v.containerId !in g.home
    ensures |g.home| + |Victims(Filter(snapshot, RunningOf(g.d)), count)| <= Count(snapshot, RunningOf(g.d))
  {
    var running := Filter(snapshot, RunningOf(g.d));
    hide Victims, SnapshotOk;
    var rest := LeftRows(running, count);
    EnoughLeft(g, snapshot, Victims(running, count), rest);
  }

  /**
   The exact condition: when there is something to stop, the protected containers are
   spared if and only if the creates still pending leave room for all of them.
   */
  lemma {:induction false} SparedIffPendingLeavesRoom(g: Guard, t: Tables, d: Deployment, snapshot: seq<ContainerRecord>)
    requires SnapshotOk(g, snapshot) && |g.home| > 0
    requires d.deploymentId == g.d && Deficit(t, d, snapshot) < 0
    ensures (forall v :: v in Victims(Filter(snapshot, RunningOf(g.d)), -Deficit(t, d, snapshot)) ==>
               v.containerId !in g.home)
       <==> PendingCreates(t, g.d) + |g.home| <= d.replicas
  {
    hide Victims, SnapshotOk, PendingCreates, SortDesc;
    var count := -Deficit(t, d, snapshot);
    VictimsSize(Filter(snapshot, RunningOf(g.d)), count);
    if PendingCreates(t, g.d) + |g.home| <= d.replicas {
      VictimsAreNewer(g, snapshot, count);
    } else if forall v :: v in Victims(Filter(snapshot, RunningOf(g.d)), count) ==> v.containerId !in g.home {
      SparedAreLeft(g, snapshot, count);
    }
  }

  lemma OthersVictimsAreOthers(g: Guard, snapshot: seq<ContainerRecord>, d: Id, count: nat)
    requires RowsOk(g, snapshot) && d != g.d
    ensures forall v :: v in Victims(Filter(snapshot, RunningOf(d)), count) ==> v.containerId !in g.home
  {
    VictimsAreRunning(Filter(snapshot, RunningOf(d)), count);
    forall v | v in Victims(Filter(snapshot, RunningOf(d)), count) ensures v.containerId !in g.home {
      assert v in snapshot && RunningOf(d)(v) && RowOk(g, v);
    }
  }

  // ---- The steps of a pass -------------------------------------------------

  lemma LostStayDistinct(t: Tables, id: Id)
    requires DistinctBy(t.containers, ContainerIdOf())
    ensures DistinctBy(MarkContainerLost(t, id).containers, ContainerIdOf())
  {
    var u := MarkContainerLost(t, id);
    assert forall i :: 0 <= i < |t.containers| ==> u.containers[i] == MarkedLost(id)(t.containers[i]);
  }

  lemma MarkLostKeeps(g: Guard, t: Tables, id: Id)
    requires TableOk(g)(t) && id !in g.home
    ensures TableOk(g)(MarkContainerLost(t, id))
  {
    var u := MarkContainerLost(t, id);
    assert forall i :: 0 <= i < |t.containers| ==> u.containers[i] == MarkedLost(id)(t.containers[i]);
    LostStayDistinct(t, id);
    hide DistinctBy, PendingCreates, AsksRight, SparesThem;
    forall c | c in u.containers ensures RowOk(g, c) {
      var i :| 0 <= i < |u.containers| && u.containers[i] == c;
      assert RowOk(g, t.containers[i]);
    }
    forall x | x in g.home ensures Shows(u.containers, x) {
      assert Shows(t.containers, x);
      var c :| c in t.containers && c.containerId == x;
      var i :| 0 <= i < |t.containers| && t.containers[i] == c;
      assert u.containers[i].containerId == x;
    }
  }

  lemma StopKeeps(g: Guard, t: Tables, n: Id, d: Id, c: Id, service: string, now: Time)
    requires TableOk(g)(t) && c !in g.home
    ensures TableOk(g)(CreateAssignment(t, n, Stop, d, c, service, NO_WORKLOAD, now))
  {
    PassIdempotence.StopPendsNoCreate(t, n, d, c, service, now, g.d);
  }

  lemma PlaceKeeps(g: Guard, t: Tables, d: Deployment, n: Id, now: Time)
    requires TableOk(g)(t) && Registered(t, n)
    requires d.deploymentId == g.d ==> PendingCreates(t, g.d) + 1 + |g.home| <= g.replicas
    ensures TableOk(g)(Place(t, d, n, now))
  {
    PassIdempotence.PlacePendsOne(t, d, n, now, g.d);
    PassIdempotence.PlaceKeepsDeployments(t, d, n, now);
    assert Place(t, d, n, now).containers == t.containers;
    forall a | a in Place(t, d, n, now).assignments ensures SparesThem(g, a) {
    }
    hide Place, RowsOk, ShowsAll, AsksRight, SparesThem, PendingCreates;
  }

  lemma ClearKeeps(g: Guard, t: Tables, now: Time)
    requires TableOk(g)(t)
    ensures TableOk(g)(ClearOldAssignments(t, now))
  {
    PassIdempotence.ClearingKeepsPending(t, now, g.d);
  }

  lemma NodesKeep(g: Guard, t: Tables, f: NodeInfo -> NodeInfo)
    requires TableOk(g)(t)
    ensures TableOk(g)(t.(nodes := Map(t.nodes, f)))
  {
  }

  lemma {:induction false} StoppingBegins(g: Guard, t: Tables, d: Deployment, snapshot: seq<ContainerRecord>)
    requires TableOk(g)(t) && SnapshotOk(g, snapshot) && Deficit(t, d, snapshot) < 0
    requires d.deploymentId == g.d ==> d.replicas == g.replicas
    ensures forall v :: v in Victims(Filter(snapshot, RunningOf(d.deploymentId)), -Deficit(t, d, snapshot)) ==>
      v.containerId !in g.home
  {
    hide Victims, RowsOk, ShowsAll;
    if d.deploymentId == g.d {
      VictimsAreNewer(g, snapshot, -Deficit(t, d, snapshot));
    } else {
      OthersVictimsAreOthers(g, snapshot, d.deploymentId, -Deficit(t, d, snapshot));
    }
  }

  lemma PlacingBegins(g: Guard, t: Tables, d: Deployment, snapshot: seq<ContainerRecord>)
    requires TableOk(g)(t) && SnapshotOk(g, snapshot) && Deficit(t, d, snapshot) > 0
    requires d.deploymentId == g.d && d.replicas == g.replicas
    ensures PendingCreates(t, g.d) + Deficit(t, d, snapshot) + |g.home| <= g.replicas
  {
    RunningRowsBounds(g, snapshot);
  }

  lemma ScalingKeeps(g: Guard, t: Tables, p: PassState)
    requires TableOk(g)(t) && PassOk(g, t, p) && p.Busy? && p.stage.Scaling?
    ensures PassOk(g, t, Advance(Config(t, p)).pass)
  {
    hide Victims, Deficit, PendingCreates, SnapshotOk;
    var snapshot, todo := p.stage.snapshot, p.stage.todo;
    if todo == [] {
      assert RowsOk(g, snapshot) && g.d in DeploymentIds(t) by { SnapshotRows(g, snapshot); }
    } else {
      var d := todo[0];
      assert d in todo && forall x :: x in todo[1..] ==> x in todo;
      if Deficit(t, d, snapshot) < 0 {
        StoppingBegins(g, t, d, snapshot);
      } else if Deficit(t, d, snapshot) > 0 && d.deploymentId == g.d {
        PlacingBegins(g, t, d, snapshot);
      }
    }
  }

  lemma SnapshotRows(g: Guard, rows: seq<ContainerRecord>)
    requires SnapshotOk(g, rows)
    ensures RowsOk(g, rows)
  {
  }

  lemma LosingKeeps(g: Guard, t: Tables, p: PassState)
    requires TableOk(g)(t) && PassOk(g, t, p) && p.Busy? && (p.stage.Losing? || p.stage.Failing?)
    ensures TableOk(g)(Advance(Config(t, p)).t)
    ensures PassOk(g, Advance(Config(t, p)).t, Advance(Config(t, p)).pass)
  {
    if p.stage.Failing? && p.stage.nodes != [] {
      var nodes := p.stage.nodes;
      assert nodes[0] in nodes && forall x :: x in nodes[1..] ==> x in nodes;
      forall r | r in Filter(t.containers, OnNode(nodes[0])) ensures r.containerId !in g.home {
        assert OnNode(nodes[0])(r) && RowOk(g, r) && NotHome(g, nodes[0]);
      }
    } else if p.stage.Losing? && p.stage.rows != [] {
      var rows := p.stage.rows;
      assert rows[0] in rows && forall x :: x in rows[1..] ==> x in rows;
      MarkLostKeeps(g, t, rows[0].containerId);
    }
  }

  lemma ReapingKeeps(g: Guard, t: Tables, p: PassState)
    requires TableOk(g)(t) && PassOk(g, t, p) && p.Busy? && p.stage.Reaping?
    ensures TableOk(g)(Advance(Config(t, p)).t)
    ensures PassOk(g, Advance(Config(t, p)).t, Advance(Config(t, p)).pass)
  {
    hide HasPendingStop;
    var rows := p.stage.rows;
    if rows == [] {
      ClearKeeps(g, t, p.now);
    } else {
      var r := rows[0];
      assert r in rows && RowOk(g, r) && forall x :: x in rows[1..] ==> x in rows;
      if Orphan(r, p.stage.live) {
        StopKeeps(g, t, r.nodeId, "", r.containerId, r.serviceName, p.now);
      }
    }
  }

  lemma TableAsksRight(g: Guard, t: Tables)
    requires TableOk(g)(t)
    ensures AsksRight(g, t.deployments)
  {
  }

  lemma AdvanceKeeps(g: Guard, t: Tables, p: PassState)
    requires TableOk(g)(t) && PassOk(g, t, p) && p.Busy?
    ensures TableOk(g)(Advance(Config(t, p)).t)
    ensures PassOk(g, Advance(Config(t, p)).t, Advance(Config(t, p)).pass)
  {
    hide Scheduling.Choose, Place, TableOk, PendingCreates, Registered;
    match p.stage
    case Marking(ids, _) =>
      if ids != [] {
        NodesKeep(g, t, MarkedUnhealthy(ids[0]));
      }
    case Failing(_) => LosingKeeps(g, t, p);
    case Losing(_, _) => LosingKeeps(g, t, p);
    case Listing(_) => assert AsksRight(g, t.deployments) by { TableAsksRight(g, t); }
    case Scaling(_, _) => ScalingKeeps(g, t, p);
    case Placing(d, left, snapshot, todo) =>
      if left != 0 && Scheduling.Choose(t, d.work).Placed? {
        ChoiceIsRegistered(t, d.work);
        var n := Scheduling.Choose(t, d.work).decision.node.nodeId;
        PlaceKeeps(g, t, d, n, p.now);
        PassIdempotence.PlacePendsOne(t, d, n, p.now, g.d);
      }
    case Stopping(d, victims, snapshot, todo) =>
      if victims != [] {
        var v := victims[0];
        assert v in victims && forall x :: x in victims[1..] ==> x in victims;
        StopKeeps(g, t, v.nodeId, d.deploymentId, v.containerId, d.serviceName, p.now);
      }
    case Reaping(_, _) => ReapingKeeps(g, t, p);
  }

  // ---- The other events ----------------------------------------------------

  lemma ReportKeeps(g: Guard, t: Tables, r: Report, now: Time)
    requires TableOk(g)(t) && ReportOk(g, r)
    ensures TableOk(g)(UpdateHeartbeat(t, r.node, r.rows, r.cpu, r.memory, now))
  {
    if Registered(t, r.node) {
      var cs := Filter(t.containers, NotOnNode(r.node));
      var u := UpdateHeartbeat(t, r.node, r.rows, r.cpu, r.memory, now);
      FilterDistinct(t.containers, NotOnNode(r.node), ContainerIdOf());
      InsertReportedDistinct(cs, r.rows, r.node);
      forall c | c in u.containers ensures RowOk(g, c) {
        InsertReportedOrigin(cs, r.rows, r.node, c);
      }
      forall id | id in g.home ensures Shows(u.containers, id) {
        if g.home[id] == r.node || Shows(r.rows, id) {
          assert Shows(r.rows, id);
          InsertReportedShows(cs, r.rows, r.node, id);
        } else {
          assert Shows(t.containers, id);
          var c :| c in t.containers && c.containerId == id;
          assert RowOk(g, c) && NotOnNode(r.node)(c);
          InsertReportedKeeps(cs, r.rows, r.node, c);
        }
      }
    }
  }

  lemma AckKeeps(g: Guard, t: Tables, id: nat)
    requires TableOk(g)(t)
    ensures TableOk(g)(AcknowledgeAssignment(t, id))
    ensures PendingCreates(AcknowledgeAssignment(t, id), g.d) <= PendingCreates(t, g.d)
  {
    var u := AcknowledgeAssignment(t, id);
    var left := (a: Assignment) => PendingCreateOf(g.d)(a) && a.assignmentId != id;
    CountOfMap(t.assignments, Acknowledging(id), PendingCreateOf(g.d), left);
    CountMono(t.assignments, left, PendingCreateOf(g.d));
    forall a | a in u.assignments ensures SparesThem(g, a) {
      var i :| 0 <= i < |u.assignments| && u.assignments[i] == a;
      assert SparesThem(g, t.assignments[i]) && a == Acknowledging(id)(t.assignments[i]);
    }
  }

  lemma LeaveKeeps(g: Guard, t: Tables, n: Id)
    requires TableOk(g)(t) && NotHome(g, n)
    ensures TableOk(g)(RemoveNode(t, n))
    ensures PendingCreates(RemoveNode(t, n), g.d) <= PendingCreates(t, g.d)
  {
    var u := RemoveNode(t, n);
    var both := (a: Assignment) => AssignmentElsewhere(n)(a) && PendingCreateOf(g.d)(a);
    CountOfFilter(t.assignments, AssignmentElsewhere(n), PendingCreateOf(g.d), both);
    CountMono(t.assignments, both, PendingCreateOf(g.d));
    FilterDistinct(t.containers, NotOnNode(n), ContainerIdOf());
    forall id | id in g.home ensures Shows(u.containers, id) {
      assert Shows(t.containers, id);
      var c :| c in t.containers && c.containerId == id;
      assert RowOk(g, c) && NotOnNode(n)(c);
    }
  }

  lemma OtherDeploymentsKeep(g: Guard, t: Tables, ds: seq<Deployment>)
    requires TableOk(g)(t) && AsksRight(g, ds) && exists i :: 0 <= i < |ds| && ds[i].deploymentId == g.d
    ensures TableOk(g)(t.(deployments := ds))
  {
    hide AsksRight, RowsOk, ShowsAll, SparesThem;
    assert PendingCreates(t.(deployments := ds), g.d) == PendingCreates(t, g.d);
  }

  lemma DeploymentsKeep(g: Guard, t: Tables, e: Event, w: World)
    requires TableOk(g)(t) && w.t == t && Undisturbed(g, w, e)
    requires e.Deploy? || e.Rescale? || e.Undeploy?
    ensures TableOk(g)(Apply(w, e).t)
  {
    hide Advance, Begin, UpdateHeartbeat, RegisterNode, RemoveNode, RunAssignment, StaleNodes, RowsOk, ShowsAll;
    var u := Apply(w, e).t;
    var ds := u.deployments;
    assert u == t.(deployments := ds) && AsksRight(g, ds) && (e.Undeploy? ==> g.d in DeploymentIds(u));
    var d :| d in t.deployments && d.deploymentId == g.d;
    var i :| 0 <= i < |t.deployments| && t.deployments[i] == d;
    assert !e.Undeploy? ==> i < |ds| && ds[i].deploymentId == g.d;
    hide Apply, TableOk, AsksRight, Undisturbed;
    OtherDeploymentsKeep(g, t, ds);
  }

  lemma CreateKeeps(g: Guard, rows: seq<ContainerRecord>, n: Id, a: Assignment, outcome: Outcome, newId: Id, now: Time)
    requires RowsOk(g, rows) && ShowsAll(g, rows) && now > g.cutoff
    requires forall c :: c in rows ==> c.containerId != newId
    ensures RowsOk(g, RunCreate(rows, n, a, outcome, newId, now))
    ensures ShowsAll(g, RunCreate(rows, n, a, outcome, newId, now))
  {
    var v := RunCreate(rows, n, a, outcome, newId, now);
    assert newId !in g.home by {
      assert newId in g.home ==> Shows(rows, newId);
    }
    forall id | id in g.home ensures Shows(v, id) {
      assert Shows(rows, id);
      var c :| c in rows && c.containerId == id;
      assert c in v;
    }
  }

  lemma StopEngineKeeps(g: Guard, rows: seq<ContainerRecord>, n: Id, a: Assignment, outcome: Outcome)
    requires RowsOk(g, rows) && ShowsAll(g, rows) && a.containerId !in g.home
    ensures RowsOk(g, RunStop(rows, n, a, outcome)) && ShowsAll(g, RunStop(rows, n, a, outcome))
  {
    var v := RunStop(rows, n, a, outcome);
    if a.containerId != "" && outcome.HalfDone? {
      MapKeepsRows(g, rows, Halted(n, a.containerId));
    } else if a.containerId != "" && outcome.Done? {
      forall id | id in g.home ensures Shows(v, id) {
        assert Shows(rows, id);
        var c :| c in rows && c.containerId == id;
        assert NotStopped(n, a.containerId)(c);
      }
    }
  }

  /** A change of rows that are not protected, and that keeps them out of the deployment's early times. */
  lemma MapKeepsRows(g: Guard, rows: seq<ContainerRecord>, f: ContainerRecord -> ContainerRecord)
    requires RowsOk(g, rows) && ShowsAll(g, rows)
    requires forall c :: c in rows && c.containerId in g.home ==> f(c) == c
    requires forall c :: c in rows ==>
      f(c).containerId == c.containerId && f(c).startedAt == c.startedAt
      && (f(c).deploymentId == c.deploymentId || f(c).deploymentId != g.d)
      && (f(c).status.Running? ==> c.status.Running?)
    ensures RowsOk(g, Map(rows, f)) && ShowsAll(g, Map(rows, f))
  {
    var v := Map(rows, f);
    forall c | c in v ensures RowOk(g, c) {
      var i :| 0 <= i < |v| && v[i] == c;
      assert rows[i] in rows && RowOk(g, rows[i]) && c == f(rows[i]);
    }
    forall id | id in g.home ensures Shows(v, id) {
      assert Shows(rows, id);
      var c :| c in rows && c.containerId == id;
      var i :| 0 <= i < |rows| && rows[i] == c;
      assert v[i] == c && v[i] in v;
    }
  }

  lemma PassOkMono(g: Guard, t: Tables, u: Tables, p: PassState)
    requires PassOk(g, t, p) && PendingCreates(u, g.d) <= PendingCreates(t, g.d)
    ensures PassOk(g, u, p)
  {
    hide PendingCreates;
  }

  /** The events on the master's side. */
  lemma MasterStep(g: Guard, w: World, e: Event)
    requires Kept(g, w) && Enabled(w, e) && Undisturbed(g, w, e)
    requires !(e.SendReport? || e.LoseReport? || e.Poll? || e.Execute? || e.SendAcks? || e.Exit? || e.Crash?)
    ensures TableOk(g)(Apply(w, e).t) && PassOk(g, Apply(w, e).t, Apply(w, e).pass)
  {
    hide TableOk, PassOk, PendingCreates, Advance, UpdateHeartbeat, StaleNodes;
    var t := w.t;
    if e.BeginPass? {
      NodesKeep(g, t, MasterBeating(w.master, e.now));
      BeginIsOk(g, w, e.now, e.tick);
    } else if e.AdvancePass? {
      AdvanceKeeps(g, t, w.pass);
    } else if e.AbortPass? {
      IdleIsOk(g, t);
    } else {
      if e.Join? {
        JoinKeeps(g, t, e.node, e.address, e.cpu, e.memory, e.now);
      } else if e.Leave? {
        LeaveKeeps(g, t, e.node);
      } else if e.DeliverReport? {
        ReportKeeps(g, t, e.report, e.now);
        ReportPendsNothing(t, e.report, e.now, g.d);
      } else if e.DeliverAck? {
        AckKeeps(g, t, e.id);
      } else {
        DeploymentsKeep(g, t, e, w);
        SamePending(t, Apply(w, e).t, g.d);
      }
      PassOkMono(g, t, Apply(w, e).t, w.pass);
    }
  }

  lemma SamePending(t: Tables, u: Tables, d: Id)
    requires u.assignments == t.assignments
    ensures PendingCreates(u, d) == PendingCreates(t, d)
  {
  }

  lemma JoinKeeps(g: Guard, t: Tables, n: Id, address: string, cpu: int, memory: int, now: Time)
    requires TableOk(g)(t)
    ensures TableOk(g)(RegisterNode(t, n, address, Worker, cpu, memory, now))
    ensures PendingCreates(RegisterNode(t, n, address, Worker, cpu, memory, now), g.d) == PendingCreates(t, g.d)
  {
  }

  lemma ReportPendsNothing(t: Tables, r: Report, now: Time, d: Id)
    ensures PendingCreates(UpdateHeartbeat(t, r.node, r.rows, r.cpu, r.memory, now), d) == PendingCreates(t, d)
  {
  }

  lemma IdleIsOk(g: Guard, t: Tables)
    ensures PassOk(g, t, Idle)
  {
  }

  lemma BeginIsOk(g: Guard, w: World, now: Time, tick: nat)
    requires Undisturbed(g, w, BeginPass(now, tick))
    ensures PassOk(g, Begin(w.t, w.master, now, tick).t, Begin(w.t, w.master, now, tick).pass)
  {
    hide StaleNodes;
  }

  /** The events on the agents' side. */
  lemma AgentStep(g: Guard, w: World, e: Event)
    requires Kept(g, w) && Enabled(w, e) && Undisturbed(g, w, e)
    requires e.SendReport? || e.LoseReport? || e.Poll? || e.Execute? || e.SendAcks? || e.Exit? || e.Crash?
    ensures Kept(g, Apply(w, e))
  {
    hide TableOk, PassOk;
    var v := Apply(w, e);
    match e
    case SendReport(n, cpu, memory) =>
      var rows := Filter(w.engines, OnNode(n));
      forall c | c in rows ensures c.nodeId == n && RowOk(g, c) {
        assert OnNode(n)(c);
      }
      forall id | id in g.home && g.home[id] == n ensures Shows(rows, id) {
        assert Shows(w.engines, id);
        var c :| c in w.engines && c.containerId == id;
        assert RowOk(g, c) && OnNode(n)(c);
      }
    case Poll(n) =>
      TableSpares(g, w.t);
    case Execute(n, outcome, newId, now) =>
      var a := w.agents[n].batch[0];
      assert a in w.agents[n].batch && SparesThem(g, a);
      if a.action.Create? {
        CreateKeeps(g, w.engines, n, a, outcome, newId, now);
      } else {
        StopEngineKeeps(g, w.engines, n, a, outcome);
      }
    case LoseReport(r) =>
    case SendAcks(n) =>
    case Exit(id) => MapKeepsRows(g, w.engines, Exited(id));
    case Crash(n) =>
      forall c | c in w.engines && c.containerId in g.home ensures Forgotten(n)(c) == c {
        assert RowOk(g, c);
      }
      MapKeepsRows(g, w.engines, Forgotten(n));
  }

  lemma TableSpares(g: Guard, t: Tables)
    requires TableOk(g)(t)
    ensures forall a :: a in t.assignments ==> SparesThem(g, a)
  {
  }

  /** What only the master's own events change. */
  lemma EnginesStay(g: Guard, w: World, e: Event)
    requires Enabled(w, e)
    requires !(e.SendReport? || e.LoseReport? || e.Poll? || e.Execute? || e.SendAcks? || e.Exit? || e.Crash?)
    ensures var v := Apply(w, e); (v.engines, v.agents, v.reports) == (w.engines, w.agents, w.reports)
  {
    hide Advance, Begin, UpdateHeartbeat, RegisterNode, RemoveNode;
  }

  lemma KeptMadeOf(g: Guard, w: World, v: World)
    requires Kept(g, w) && (v.engines, v.agents, v.reports) == (w.engines, w.agents, w.reports)
    requires TableOk(g)(v.t) && PassOk(g, v.t, v.pass)
    ensures Kept(g, v)
  {
    hide TableOk, PassOk;
  }

  lemma {:induction false} KeptStep(g: Guard, w: World, e: Event)
    requires Kept(g, w) && Enabled(w, e) && Undisturbed(g, w, e)
    ensures Kept(g, Apply(w, e))
  {
    hide Kept, Apply, TableOk, PassOk, Undisturbed, Enabled;
    if e.SendReport? || e.LoseReport? || e.Poll? || e.Execute? || e.SendAcks? || e.Exit? || e.Crash? {
      AgentStep(g, w, e);
    } else {
      MasterStep(g, w, e);
      EnginesStay(g, w, e);
      KeptMadeOf(g, w, Apply(w, e));
    }
  }

  /** No stop names a protected container, all of them run, and the running count is at least theirs. */
  ghost function SparesOldest(g: Guard): World -> bool {
    (w: World) =>
      && (forall a :: a in w.t.assignments && a.action.Stop? ==> a.containerId !in g.home)
      && (forall id :: id in g.home ==>
            exists c :: c in w.engines && c.containerId == id && c.status.Running? && c.deploymentId == g.d)
      && Count(w.engines, RunningOf(g.d)) >= |g.home|
  }

  /**
   In every undisturbed run no stop is ever assigned to a protected container, the
   engines keep all of them running, and the running replicas never drop below them.
   */
  lemma {:induction false} OldestAreNeverStopped(g: Guard, w: World, es: seq<Event>)
    requires Kept(g, w) && Legal(w, es, Peaceful(g))
    ensures SparesOldest(g)(Play(w, es, Peaceful(g)))
  {
    hide Apply, Enabled, Undisturbed;
    var permitted := Peaceful(g);
    var inv := (v: World) => Kept(g, v);
    forall v: World, e: Event | inv(v) && Enabled(v, e) && permitted(v, e) ensures inv(Apply(v, e)) {
      KeptStep(g, v, e);
    }
    RunInduction(w, es, permitted, inv);
    var v := Play(w, es, permitted);
    KeptMeans(g, v);
  }

  lemma KeptMeans(g: Guard, v: World)
    requires Kept(g, v)
    ensures SparesOldest(g)(v)
  {
    forall a | a in v.t.assignments && a.action.Stop? ensures a.containerId !in g.home {
      assert SparesThem(g, a);
    }
    forall id | id in g.home
      ensures exists c :: c in v.engines && c.containerId == id && c.status.Running? && c.deploymentId == g.d
    {
      assert Shows(v.engines, id);
      var c :| c in v.engines && c.containerId == id;
      assert RowOk(g, c);
    }
    forall id | id in g.home.Keys
      ensures exists c :: c in v.engines && RunningOf(g.d)(c) && ContainerIdOf()(c) == id
    {
      var c :| c in v.engines && c.containerId == id && c.status.Running? && c.deploymentId == g.d;
      assert RunningOf(g.d)(c) && ContainerIdOf()(c) == id;
    }
    CountCovers(v.engines, RunningOf(g.d), ContainerIdOf(), g.home.Keys);
    assert |g.home.Keys| == |g.home|;
  }

  // ---- The k oldest --------------------------------------------------------

  /** Of `d`, rows show only what runs, and every row of a running container as it is. */
  ghost predicate ShowsTruly(rows: seq<ContainerRecord>, engines: seq<ContainerRecord>, d: Id) {
    && (forall c, e :: c in rows && e in engines && RunningOf(d)(e) && c.containerId == e.containerId ==> c == e)
    && (forall c :: c in rows && RunningOf(d)(c) ==> c in engines)
  }

  predicate StopsNoneOf(engines: seq<ContainerRecord>, d: Id, a: Assignment) {
    a.action.Stop? ==> forall e :: e in engines && RunningOf(d)(e) ==> e.containerId != a.containerId
  }

  /**
   Between passes, no stop of a running container of `d` is left over, and table and
   reports on their way show its running containers; the agents may be at work.
   */
  ghost predicate Steady(w: World, d: Id) {
    && w.pass.Idle?
    && DistinctBy(w.t.containers, ContainerIdOf()) && DistinctBy(w.engines, ContainerIdOf())
    && ShowsTruly(w.t.containers, w.engines, d)
    && (forall e :: e in w.engines && RunningOf(d)(e) ==> e in w.t.containers)
    && (forall r :: r in w.reports ==>
          && ShowsTruly(r.rows, w.engines, d)
          && (forall c :: c in r.rows ==> c.nodeId == r.node)
          && (forall e :: e in w.engines && RunningOf(d)(e) && e.nodeId == r.node ==> e in r.rows))
    && (forall a :: a in w.t.assignments ==> StopsNoneOf(w.engines, d, a))
    && (forall n, a :: n in w.agents && a in w.agents[n].batch ==> StopsNoneOf(w.engines, d, a))
  }

  /** `g` protects `k` running containers of its deployment, and every other running one started later. */
  ghost predicate ProtectsOldest(g: Guard, rows: seq<ContainerRecord>, k: nat) {
    && |g.home| == k && ShowsAll(g, rows)
    && (forall c :: c in rows && c.containerId in g.home ==>
          RunningOf(g.d)(c) && c.startedAt <= g.cutoff && c.nodeId == g.home[c.containerId])
    && (forall c :: c in rows && RunningOf(g.d)(c) && c.containerId !in g.home ==> c.startedAt > g.cutoff)
  }

  function Everything(): ContainerRecord -> bool { (c: ContainerRecord) => true }

  function IdsOf(rows: seq<ContainerRecord>): set<Id> { set c | c in rows :: c.containerId }

  lemma IdsAreAsMany(rows: seq<ContainerRecord>)
    requires DistinctBy(rows, ContainerIdOf())
    ensures |IdsOf(rows)| == |rows|
  {
    CountAll(rows, Everything());
    CountWithin(rows, Everything(), ContainerIdOf(), IdsOf(rows));
    forall id | id in IdsOf(rows) ensures exists c :: c in rows && Everything()(c) && ContainerIdOf()(c) == id {
      var c :| c in rows && c.containerId == id;
      assert Everything()(c) && ContainerIdOf()(c) == id;
    }
    hide DistinctBy;
    CountCovers(rows, Everything(), ContainerIdOf(), IdsOf(rows));
  }

  /** The nodes of some rows by container id. */
  ghost predicate Homes(rows: seq<ContainerRecord>, home: map<Id, Id>) {
    && |home| == |rows|
    && (forall id :: id in home <==> Shows(rows, id))
    && (forall c :: c in rows ==> c.containerId in home && home[c.containerId] == c.nodeId)
  }

  lemma RowsHaveHomes(rows: seq<ContainerRecord>)
    requires DistinctBy(rows, ContainerIdOf())
    ensures exists home :: Homes(rows, home)
  {
    IdsAreAsMany(rows);
    var home := map id | id in IdsOf(rows) :: NodeOf(rows, id);
    assert home.Keys == IdsOf(rows) && |home.Keys| == |home|;
    forall c | c in rows ensures c.containerId in home && home[c.containerId] == c.nodeId {
      assert Shows(rows, c.containerId);
      var o :| o in rows && o.containerId == c.containerId && o.nodeId == NodeOf(rows, c.containerId);
      PassIdempotence.SameIdSameRow(rows, o, c);
    }
    assert Homes(rows, home);
  }

  ghost function NodeOf(rows: seq<ContainerRecord>, id: Id): Id
    requires Shows(rows, id)
  {
    var c :| c in rows && c.containerId == id;
    c.nodeId
  }

  /** Sorting leaves every row where it can be found once. */
  lemma SortedKeepsKeys<K>(s: seq<ContainerRecord>, key: ContainerRecord -> K)
    requires DistinctBy(s, key)
    ensures DistinctBy(SortDesc(s, StartedAtOf()), key)
  {
    var sorted := SortDesc(s, StartedAtOf());
    SortDescSorts(s, StartedAtOf());
    DistinctPermuted(s, sorted, key);
  }

  lemma {:induction false} DistinctPermuted<K>(a: seq<ContainerRecord>, b: seq<ContainerRecord>, key: ContainerRecord -> K)
    requires multiset(a) == multiset(b) && DistinctBy(a, key)
    ensures DistinctBy(b, key)
  {
    forall i, j | 0 <= i < j < |b| ensures key(b[i]) != key(b[j]) {
      var p := (c: ContainerRecord) => key(c) == key(b[i]);
      assert b[i] in multiset(b) && b[i] in a;
      CountKey(a, key, b[i], p);
      CountPermuted(a, b, p);
      assert b == b[..j] + b[j..];
      CountConcat(b[..j], b[j..], p);
      AgentRound.CountPositive(b[..j], p, b[i]);
      if key(b[i]) == key(b[j]) {
        AgentRound.CountPositive(b[j..], p, b[j]);
        assert false;
      }
    }
  }

  /** The running containers of a deployment, newest first. */
  ghost predicate Ranked(rows: seq<ContainerRecord>, d: Id, sorted: seq<ContainerRecord>) {
    && DistinctBy(sorted, ContainerIdOf()) && DistinctBy(sorted, StartedAtOf()) && Descending(sorted, StartedAtOf())
    && forall c :: c in sorted <==> c in rows && RunningOf(d)(c)
  }

  lemma RowsCanBeRanked(rows: seq<ContainerRecord>, d: Id)
    requires DistinctBy(rows, ContainerIdOf())
    requires DistinctBy(Filter(rows, RunningOf(d)), StartedAtOf())
    ensures exists sorted :: Ranked(rows, d, sorted) && |sorted| == Count(rows, RunningOf(d))
  {
    var running := Filter(rows, RunningOf(d));
    var sorted := SortDesc(running, StartedAtOf());
    SortDescSorts(running, StartedAtOf());
    FilterDistinct(rows, RunningOf(d), ContainerIdOf());
    SortedKeepsKeys(running, ContainerIdOf());
    SortedKeepsKeys(running, StartedAtOf());
    forall c ensures c in sorted <==> c in running {
      assert c in sorted <==> c in multiset(sorted);
      assert c in running <==> c in multiset(running);
    }
    assert Ranked(rows, d, sorted);
  }

  /** The tail of the ranking is older than the rest. */
  lemma TailIsOldest(sorted: seq<ContainerRecord>, first: nat, c: ContainerRecord)
    requires DistinctBy(sorted, StartedAtOf()) && Descending(sorted, StartedAtOf())
    requires first < |sorted| && c in sorted
    ensures c in sorted[first..] <==> c.startedAt <= sorted[first].startedAt
  {
    var i :| 0 <= i < |sorted| && sorted[i] == c;
    var key := StartedAtOf();
    assert key(sorted[i]) == c.startedAt && key(sorted[first]) == sorted[first].startedAt;
    forall x | x in sorted[first..] ensures x.startedAt <= sorted[first].startedAt {
      var j :| first <= j < |sorted| && sorted[j] == x;
      assert j > first ==> key(sorted[first]) >= key(sorted[j]);
    }
    if i < first {
      assert key(sorted[i]) >= key(sorted[first]) && key(sorted[i]) != key(sorted[first]);
    } else {
      assert sorted[first..][i - first] == c;
      assert i > first ==> key(sorted[first]) >= key(sorted[i]);
    }
  }

  lemma TailIsProtected(g: Guard, rows: seq<ContainerRecord>, sorted: seq<ContainerRecord>, first: nat)
    requires DistinctBy(rows, ContainerIdOf()) && Ranked(rows, g.d, sorted) && first < |sorted|
    requires g.cutoff == sorted[first].startedAt && |g.home| == |sorted| - first
    requires forall id :: id in g.home <==> Shows(sorted[first..], id)
    requires forall c :: c in sorted[first..] ==> c.containerId in g.home && g.home[c.containerId] == c.nodeId
    ensures ProtectsOldest(g, rows, |sorted| - first)
  {
    var oldest := sorted[first..];
    forall c | c in rows && c.containerId in g.home
      ensures RunningOf(g.d)(c) && c.startedAt <= g.cutoff && c.nodeId == g.home[c.containerId]
    {
      assert Shows(oldest, c.containerId);
      var o :| o in oldest && o.containerId == c.containerId;
      assert o in sorted;
      PassIdempotence.SameIdSameRow(rows, o, c);
      TailIsOldest(sorted, first, c);
    }
    forall c | c in rows && RunningOf(g.d)(c) && c.containerId !in g.home ensures c.startedAt > g.cutoff {
      assert c in oldest ==> Shows(oldest, c.containerId);
      TailIsOldest(sorted, first, c);
    }
    forall id | id in g.home ensures Shows(rows, id) {
      assert Shows(oldest, id);
      var o :| o in oldest && o.containerId == id;
      assert o in sorted;
    }
  }

  /** With distinct start times any number of oldest containers can be named. */
  lemma NameTheOldest(rows: seq<ContainerRecord>, d: Id, replicas: nat, k: nat)
    requires DistinctBy(rows, ContainerIdOf())
    requires DistinctBy(Filter(rows, RunningOf(d)), StartedAtOf())
    requires 1 <= k <= Count(rows, RunningOf(d))
    ensures exists g: Guard :: g.d == d && g.replicas == replicas && ProtectsOldest(g, rows, k)
  {
    hide Filter, Count, Ranked, ProtectsOldest, DistinctBy;
    RowsCanBeRanked(rows, d);
    var sorted: seq<ContainerRecord> :| Ranked(rows, d, sorted) && |sorted| == Count(rows, RunningOf(d));
    TailCanBeProtected(rows, sorted, d, replicas, |sorted| - k);
  }

  lemma TailCanBeProtected(rows: seq<ContainerRecord>, sorted: seq<ContainerRecord>, d: Id, replicas: nat, first: nat)
    requires DistinctBy(rows, ContainerIdOf()) && Ranked(rows, d, sorted) && first < |sorted|
    ensures exists g: Guard :: g.d == d && g.replicas == replicas && ProtectsOldest(g, rows, |sorted| - first)
  {
    var oldest := sorted[first..];
    forall i, j | 0 <= i < j < |oldest| ensures ContainerIdOf()(oldest[i]) != ContainerIdOf()(oldest[j]) {
      assert ContainerIdOf()(sorted[first + i]) != ContainerIdOf()(sorted[first + j]);
    }
    hide Ranked, ProtectsOldest;
    RowsHaveHomes(oldest);
    var home :| Homes(oldest, home);
    var g := Guard(d, replicas, home, sorted[first].startedAt);
    TailIsProtected(g, rows, sorted, first);
    assert g.d == d && g.replicas == replicas;
  }

  /** Rows that show the engines truly are as the guard wants them. */
  lemma TrueRowsAreOk(g: Guard, rows: seq<ContainerRecord>, engines: seq<ContainerRecord>)
    requires ShowsTruly(rows, engines, g.d) && ProtectsOldest(g, engines, |g.home|)
    ensures RowsOk(g, rows)
  {
    forall c | c in rows ensures RowOk(g, c) {
      assert RunningOf(g.d)(c) <==> c.deploymentId == g.d && c.status.Running?;
      if c.containerId in g.home {
        assert Shows(engines, c.containerId);
        var e :| e in engines && e.containerId == c.containerId;
        assert RunningOf(g.d)(e);
      }
    }
  }

  /** A stop that names no running container names no protected one. */
  lemma StopSpares(g: Guard, engines: seq<ContainerRecord>, a: Assignment)
    requires StopsNoneOf(engines, g.d, a) && ProtectsOldest(g, engines, |g.home|)
    ensures SparesThem(g, a)
  {
    forall id | id in g.home ensures exists e :: e in engines && e.containerId == id && RunningOf(g.d)(e) {
      assert Shows(engines, id);
    }
  }

  /** Where all running containers are shown, the protected ones are. */
  lemma ProtectedAreShown(g: Guard, engines: seq<ContainerRecord>, rows: seq<ContainerRecord>, id: Id)
    requires ProtectsOldest(g, engines, |g.home|) && id in g.home
    requires forall e :: e in engines && RunningOf(g.d)(e) && e.nodeId == g.home[id] ==> e in rows
    ensures Shows(rows, id)
  {
    assert Shows(engines, id);
    var e :| e in engines && e.containerId == id;
    assert RunningOf(g.d)(e) && e.nodeId == g.home[id];
  }

  lemma SteadyReportIsOk(g: Guard, w: World, r: Report)
    requires Steady(w, g.d) && ProtectsOldest(g, w.engines, |g.home|) && r in w.reports
    ensures ReportOk(g, r)
  {
    TrueRowsAreOk(g, r.rows, w.engines);
    forall id | id in g.home && g.home[id] == r.node ensures Shows(r.rows, id) {
      ProtectedAreShown(g, w.engines, r.rows, id);
    }
  }

  lemma SteadyTableIsOk(g: Guard, w: World)
    requires Steady(w, g.d) && ProtectsOldest(g, w.engines, |g.home|)
    requires g.d in DeploymentIds(w.t) && AsksRight(g, w.t.deployments)
    requires PendingCreates(w.t, g.d) + |g.home| <= g.replicas
    ensures TableOk(g)(w.t)
  {
    hide PendingCreates;
    TrueRowsAreOk(g, w.t.containers, w.engines);
    forall id | id in g.home ensures Shows(w.t.containers, id) {
      ProtectedAreShown(g, w.engines, w.t.containers, id);
    }
    forall a | a in w.t.assignments ensures SparesThem(g, a) {
      StopSpares(g, w.engines, a);
    }
  }

  lemma {:induction false} SteadyIsKept(g: Guard, w: World)
    requires Steady(w, g.d) && ProtectsOldest(g, w.engines, |g.home|)
    requires g.d != "" && g.d in DeploymentIds(w.t) && AsksRight(g, w.t.deployments)
    requires PendingCreates(w.t, g.d) + |g.home| <= g.replicas
    ensures Kept(g, w)
  {
    SteadyTableIsOk(g, w);
    forall c, e | c in w.engines && e in w.engines && c.containerId == e.containerId ensures c == e {
      PassIdempotence.SameIdSameRow(w.engines, c, e);
    }
    TrueRowsAreOk(g, w.engines, w.engines);
    forall r | r in w.reports ensures ReportOk(g, r) {
      SteadyReportIsOk(g, w, r);
    }
    hide TableOk, RowsOk, ReportOk, ShowsAll;
    forall n, a | n in w.agents && a in w.agents[n].batch ensures SparesThem(g, a) {
      StopSpares(g, w.engines, a);
    }
    assert ShowsAll(g, w.engines) by { ProtectedAll(g, w.engines); }
  }

  lemma ProtectedAll(g: Guard, rows: seq<ContainerRecord>)
    requires ProtectsOldest(g, rows, |g.home|)
    ensures ShowsAll(g, rows)
  {
  }

  /** No undisturbed run from `w` stops a protected container. */
  ghost predicate SparedInEveryRun(g: Guard, w: World) {
    forall es :: Legal(w, es, Peaceful(g)) ==> SparesOldest(g)(Play(w, es, Peaceful(g)))
  }

  /**
   From any steady state with distinct start times, and for any k that the creates still
   pending leave room for: in every undisturbed run the k oldest running containers of the
   deployment are never stopped.
   */
  lemma KOldestAreNeverStopped(w: World, d: Id, replicas: nat, k: nat)
    requires Steady(w, d) && d != "" && d in DeploymentIds(w.t)
    requires forall x :: x in w.t.deployments && x.deploymentId == d ==> x.replicas == replicas
    requires DistinctBy(Filter(w.engines, RunningOf(d)), StartedAtOf())
    requires 1 <= k <= Count(w.engines, RunningOf(d)) && PendingCreates(w.t, d) + k <= replicas
    ensures exists g: Guard ::
      g.d == d && g.replicas == replicas && ProtectsOldest(g, w.engines, k) && SparedInEveryRun(g, w)
  {
    NameTheOldest(w.engines, d, replicas, k);
    var g: Guard :| g.d == d && g.replicas == replicas && ProtectsOldest(g, w.engines, k);
    hide Filter, Count, PendingCreates, Steady;
    SteadyIsKept(g, w);
    forall es | Legal(w, es, Peaceful(g)) ensures SparesOldest(g)(Play(w, es, Peaceful(g))) {
      hide Kept, Legal, Play, ProtectsOldest;
      OldestAreNeverStopped(g, w, es);
    }
  }

  /** A run from the first start ends in such a state, with one replica too many and k = 1. */
  lemma ScaleDownIsReached()
    ensures var w := ONE_TOO_MANY;
      && Initial(START) && Reaches(START, w)
      && Steady(w, "d") && "d" in DeploymentIds(w.t)
      && (forall x :: x in w.t.deployments && x.deploymentId == "d" ==> x.replicas == 1)
      && DistinctBy(Filter(w.engines, RunningOf("d")), StartedAtOf())
      && Count(w.engines, RunningOf("d")) == 2 && PendingCreates(w.t, "d") == 0
      && Deficit(w.t, w.t.deployments[0], w.t.containers) == -1
  {
    hide Reaches, Steady, Filter, Count;
    OneTooManyCanRun();
    OneTooManyIsSteady();
    OneTooManyCounts();
    var w := ONE_TOO_MANY;
    assert w.t.deployments[0] in w.t.deployments && w.t.deployments[0].deploymentId == "d";
  }

  lemma OneTooManyCounts()
    ensures Filter(BOTH, RunningOf("d")) == BOTH && Count(BOTH, RunningOf("d")) == 2
    ensures PendingCreates(ONE_TOO_MANY.t, "d") == 0
  {
    FilterAll(BOTH, RunningOf("d"));
    assert |Filter(BOTH, RunningOf("d"))| == |BOTH|;
    hide Filter;
    CountNone(ONE_TOO_MANY.t.assignments, PendingCreateOf("d"));
  }

  lemma OneTooManyIsSteady()
    ensures Steady(ONE_TOO_MANY, "d")
  {
  }
}
