/**
 One reconciliation pass: what it does to the tables, and the object that does it.
 */
module Reconciliation {
  import opened Seqs
  import opened Tables
  import opened StateStore
  import opened Scheduling

  function StartedAtOf(): ContainerRecord -> Time { (c: ContainerRecord) => c.startedAt }

  function LoseRow(t: Tables, c: ContainerRecord): Tables {
    if c.IsActive() then MarkContainerLost(t, c.containerId) else t
  }

  function LoseRows(t: Tables, rows: seq<ContainerRecord>): Tables
    decreases |rows|
  {
    if rows == [] then t else LoseRows(LoseRow(t, rows[0]), rows[1..])
  }

  function HandleNodeFailures(t: Tables, ids: seq<Id>): Tables
    decreases |ids|
  {
    if ids == [] then t
    else HandleNodeFailures(LoseRows(t, Filter(t.containers, OnNode(ids[0]))), ids[1..])
  }

  function Place(t: Tables, d: Deployment, n: Id, now: Time): Tables {
    ReserveResources(
      CreateAssignment(t, n, Create, d.deploymentId, "", d.serviceName, d.work, now),
      n, d.work.cpu, d.work.memory)
  }

  /** Up to `count` placements, ending early at the first that is refused. */
  function ScaleUp(t: Tables, d: Deployment, count: nat, now: Time): Tables
    decreases count
  {
    if count == 0 || !Choose(t, d.work).Placed? then t
    else ScaleUp(Place(t, d, Choose(t, d.work).decision.node.nodeId, now), d, count - 1, now)
  }

  function StopOne(t: Tables, d: Deployment, c: ContainerRecord, now: Time): Tables {
    CreateAssignment(t, c.nodeId, Stop, d.deploymentId, c.containerId, d.serviceName, NO_WORKLOAD, now)
  }

  function StopAll(t: Tables, d: Deployment, victims: seq<ContainerRecord>, now: Time): Tables
    decreases |victims|
  {
    if victims == [] then t else StopAll(StopOne(t, d, victims[0], now), d, victims[1..], now)
  }

  /** The newest `count` of the running rows. */
  function Victims(running: seq<ContainerRecord>, count: nat): seq<ContainerRecord> {
    SortDescSorts(running, StartedAtOf());
    SortDesc(running, StartedAtOf())[..if count < |running| then count else |running|]
  }

  /** Desired replicas minus running rows minus creates still pending. */
  function Deficit(t: Tables, d: Deployment, snapshot: seq<ContainerRecord>): int {
    d.replicas - Count(snapshot, RunningOf(d.deploymentId)) - PendingCreates(t, d.deploymentId)
  }

  function ReconcileOne(t: Tables, d: Deployment, snapshot: seq<ContainerRecord>, now: Time): Tables {
    var deficit := Deficit(t, d, snapshot);
    if deficit > 0 then ScaleUp(t, d, deficit, now)
    else if deficit < 0 then
      StopAll(t, d, Victims(Filter(snapshot, RunningOf(d.deploymentId)), -deficit), now)
    else t
  }

  function ReconcileDeployments(
    t: Tables, ds: seq<Deployment>, snapshot: seq<ContainerRecord>, now: Time): Tables
    decreases |ds|
  {
    if ds == [] then t
    else ReconcileDeployments(ReconcileOne(t, ds[0], snapshot, now), ds[1..], snapshot, now)
  }

  predicate Orphan(c: ContainerRecord, live: set<Id>) {
    c.status.Running? && c.deploymentId != "" && c.deploymentId !in live
  }

  function CleanupOne(t: Tables, c: ContainerRecord, live: set<Id>, now: Time): Tables {
    if Orphan(c, live) && !HasPendingStop(t, c.containerId)
    then CreateAssignment(t, c.nodeId, Stop, "", c.containerId, c.serviceName, NO_WORKLOAD, now)
    else t
  }

  function CleanupOrphans(t: Tables, rows: seq<ContainerRecord>, live: set<Id>, now: Time): Tables
    decreases |rows|
  {
    if rows == [] then t else CleanupOrphans(CleanupOne(t, rows[0], live, now), rows[1..], live, now)
  }

  function KeepMasterAlive(t: Tables, master: Id, now: Time): Tables {
    if master != "" then UpdateMasterHeartbeat(t, master, now) else t
  }

  function Maintain(t: Tables, tick: nat, now: Time): Tables {
    if tick % 60 == 0 then ClearOldAssignments(t, now) else t
  }

  /** The tables when phases 1 and 2 are over. */
  function AfterHealth(t: Tables, master: Id, now: Time): Tables {
    var alive := KeepMasterAlive(t, master, now);
    HandleNodeFailures(CheckNodeHealth(alive, now), StaleNodes(alive, now))
  }

  function Pass(t: Tables, master: Id, now: Time, tick: nat): Tables {
    var t2 := AfterHealth(t, master, now);
    var t3 := ReconcileDeployments(t2, t2.deployments, t2.containers, now);
    Maintain(CleanupOrphans(t3, t2.containers, DeploymentIds(t3), now), tick, now)
  }

  lemma VictimsAreRunning(running: seq<ContainerRecord>, count: nat)
    ensures forall c :: c in Victims(running, count) ==> c in running
  {
    SortDescSorts(running, StartedAtOf());
    forall c | c in Victims(running, count) ensures c in running {
      assert c in multiset(SortDesc(running, StartedAtOf()));
    }
  }

  // ---- The rows that change ------------------------------------------------

  /** Lost if it was hit while it ran or started, else as it was. */
  predicate LostIf(v: ContainerRecord, c: ContainerRecord, hit: bool) {
    v == if hit && (c.status.Running? || c.status.Starting?) then c.(status := Lost) else c
  }

  predicate CreateRow(a: Assignment, d: Deployment, now: Time) {
    a == Assignment(a.assignmentId, a.nodeId, Create, d.deploymentId, "", d.serviceName, d.work, now, false)
  }

  predicate StopRow(a: Assignment, c: ContainerRecord, d: Id, service: string, now: Time) {
    a == Assignment(a.assignmentId, c.nodeId, Stop, d, c.containerId, service, NO_WORKLOAD, now, false)
  }

  /** Of the rows still to lose all that are active are lost, and no other row changes. */
  lemma {:induction false} LosingRows(t: Tables, was: seq<ContainerRecord>, rows: seq<ContainerRecord>, i: nat)
    requires |t.containers| == |was| && i <= |rows| && DistinctBy(was, ContainerIdOf())
    requires forall r :: r in rows ==> r in was
    requires forall j :: 0 <= j < |was| ==> LostIf(t.containers[j], was[j], was[j] in rows[..i])
    ensures var u := LoseRows(t, rows[i..]);
      && u == t.(containers := u.containers) && |u.containers| == |was|
      && forall j :: 0 <= j < |was| ==> LostIf(u.containers[j], was[j], was[j] in rows)
    decreases |rows| - i
  {
    if i == |rows| {
      assert rows[..i] == rows;
    } else {
      assert rows[i..][1..] == rows[i + 1..] && rows[i] in rows;
      assert rows[..i + 1] == rows[..i] + [rows[i]];
      var u := LoseRow(t, rows[i]);
      var k :| 0 <= k < |was| && was[k] == rows[i];
      forall j | 0 <= j < |was| ensures LostIf(u.containers[j], was[j], was[j] in rows[..i + 1]) {
        assert ContainerIdOf()(was[j]) == ContainerIdOf()(was[k]) ==> j == k;
        assert u.containers[j] == t.containers[j] || u.containers[j] == MarkedLost(rows[i].containerId)(t.containers[j]);
      }
      hide LoseRow, LostIf;
      LosingRows(u, was, rows, i + 1);
    }
  }

  /** One stop for each victim, in order, after what was assigned before. */
  predicate StopRows(
    rows: seq<Assignment>, before: seq<Assignment>, victims: seq<ContainerRecord>, d: Deployment, now: Time)
  {
    && before <= rows && |rows| == |before| + |victims|
    && forall i :: 0 <= i < |victims| ==>
         StopRow(rows[|before| + i], victims[i], d.deploymentId, d.serviceName, now)
  }

  lemma {:induction false} StopAllRows(t: Tables, d: Deployment, victims: seq<ContainerRecord>, now: Time)
    requires forall c :: c in victims ==> Registered(t, c.nodeId)
    ensures StopRows(StopAll(t, d, victims, now).assignments, t.assignments, victims, d, now)
    decreases |victims|
  {
    if victims != [] {
      var v := StopOne(t, d, victims[0], now);
      assert victims[0] in victims && forall c :: c in victims[1..] ==> c in victims;
      assert forall n :: Registered(v, n) <==> Registered(t, n);
      assert StopRow(v.assignments[|t.assignments|], victims[0], d.deploymentId, d.serviceName, now);
      hide StopOne, StopRow, Registered;
      StopAllRows(v, d, victims[1..], now);
    }
  }

  predicate OrphanRow(a: Assignment, rows: seq<ContainerRecord>, ds: seq<Deployment>, now: Time) {
    exists c :: c in rows && c.status.Running? && c.deploymentId != ""
      && (forall d :: d in ds ==> d.deploymentId != c.deploymentId) && StopRow(a, c, "", c.serviceName, now)
  }

  // ---- The reconciler ------------------------------------------------------

  ghost predicate SameNodeIds(t: Tables, u: Tables) {
    forall n :: Registered(t, n) <==> Registered(u, n)
  }

  class Reconciler {
    const store: ClusterState
    const scheduler: Scheduler
    const masterId: Id
    var passCount: nat

    constructor (store: ClusterState, scheduler: Scheduler, masterId: Id)
      requires scheduler.store == store
      ensures this.store == store && this.scheduler == scheduler && this.masterId == masterId
      ensures passCount == 0
    {
      this.store, this.scheduler, this.masterId, passCount := store, scheduler, masterId, 0;
    }

    method LoseContainersOn(n: Id)
      requires Valid(store.Rows())
      modifies store
      ensures Valid(store.Rows())
      ensures store.Rows() == LoseRows(old(store.Rows()), Filter(old(store.containers), OnNode(n)))
      ensures store.Rows() == old(store.Rows()).(containers := store.containers)
      ensures |store.containers| == |old(store.containers)|
      ensures forall i :: 0 <= i < |store.containers| ==>
        LostIf(store.containers[i], old(store.containers)[i], old(store.containers)[i].nodeId == n)
    {
      var rows := Filter(store.containers, OnNode(n));
      LosingRows(store.Rows(), store.containers, rows, 0);
      assert forall c :: c in rows <==> c in store.containers && c.nodeId == n;
      assert rows[0..] == rows;
      hide Valid, LostIf;
      for i := 0 to |rows|
        invariant Valid(store.Rows())
        invariant LoseRows(store.Rows(), rows[i..]) == LoseRows(old(store.Rows()), rows)
      {
        assert rows[i..][1..] == rows[i + 1..];
        if rows[i].status.Running? || rows[i].status.Starting? {
          store.MarkLost(rows[i].containerId);
        }
      }
    }

    method HandleFailures(unhealthy: seq<Id>)
      requires Valid(store.Rows())
      modifies store
      ensures Valid(store.Rows())
      ensures store.Rows() == HandleNodeFailures(old(store.Rows()), unhealthy)
      ensures store.Rows() == old(store.Rows()).(containers := store.containers)
      ensures |store.containers| == |old(store.containers)|
      ensures forall i :: 0 <= i < |store.containers| ==>
        LostIf(store.containers[i], old(store.containers)[i], old(store.containers)[i].nodeId in unhealthy)
    {
      hide Valid, LoseRows, LostIf;
      NothingLost(store.containers);
      for i := 0 to |unhealthy|
        invariant Valid(store.Rows()) && store.Rows() == old(store.Rows()).(containers := store.containers)
        invariant |store.containers| == |old(store.containers)|
        invariant forall j :: 0 <= j < |store.containers| ==>
          LostIf(store.containers[j], old(store.containers)[j], old(store.containers)[j].nodeId in unhealthy[..i])
        invariant HandleNodeFailures(store.Rows(), unhealthy[i..])
               == HandleNodeFailures(old(store.Rows()), unhealthy)
      {
        assert unhealthy[i..][1..] == unhealthy[i + 1..];
        assert unhealthy[..i + 1] == unhealthy[..i] + [unhealthy[i]];
        ghost var before := store.containers;
        LoseContainersOn(unhealthy[i]);
        forall j | 0 <= j < |store.containers|
          ensures LostIf(store.containers[j], old(store.containers)[j],
                         old(store.containers)[j].nodeId in unhealthy[..i + 1])
        {
          LostTwice(store.containers[j], before[j], old(store.containers)[j], unhealthy[..i], unhealthy[i]);
        }
      }
    }

    method ScaleUpBy(d: Deployment, count: nat, now: Time)
      requires scheduler.store == store && Valid(store.Rows())
      modifies store
      ensures Valid(store.Rows())
      ensures store.Rows() == ScaleUp(old(store.Rows()), d, count, now)
      ensures |store.assignments| <= |old(store.assignments)| + count
      ensures forall i :: |old(store.assignments)| <= i < |store.assignments| ==> CreateRow(store.assignments[i], d, now)
      ensures old(store.assignments) <= store.assignments
      ensures SameNodeIds(old(store.Rows()), store.Rows())
    {
      hide Valid, Choose;
      for i := 0 to count
        invariant Valid(store.Rows())
        invariant ScaleUp(store.Rows(), d, count - i, now) == ScaleUp(old(store.Rows()), d, count, now)
        invariant old(store.assignments) <= store.assignments
        invariant |store.assignments| <= |old(store.assignments)| + i
        invariant forall j :: |old(store.assignments)| <= j < |store.assignments| ==>
          CreateRow(store.assignments[j], d, now)
        invariant SameNodeIds(old(store.Rows()), store.Rows())
      {
        var result := scheduler.Schedule(d.work);
        if !result.Placed? {
          break;
        }
        var n := result.decision.node.nodeId;
        ChoiceIsRegistered(store.Rows(), d.work);
        var created := store.Assign(n, Create, d.deploymentId, "", d.serviceName, d.work, now);
        assert created;
        store.Reserve(n, d.work.cpu, d.work.memory);
      }
    }

    method ScaleDownBy(d: Deployment, running: seq<ContainerRecord>, count: nat, now: Time)
      requires Valid(store.Rows())
      requires forall c :: c in running ==> Registered(store.Rows(), c.nodeId)
      modifies store
      ensures Valid(store.Rows())
      ensures store.Rows() == StopAll(old(store.Rows()), d, Victims(running, count), now)
      ensures StopRows(store.assignments, old(store.assignments), Victims(running, count), d, now)
      ensures SameNodeIds(old(store.Rows()), store.Rows())
    {
      hide Valid;
      SortDescSorts(running, StartedAtOf());
      var newestFirst := SortDesc(running, StartedAtOf());
      var excess := newestFirst[..if count < |running| then count else |running|];
      assert excess == Victims(running, count);
      VictimsAreRunning(running, count);
      hide Victims, SortDesc;
      StopAllRows(store.Rows(), d, excess, now);
      hide StopRows;
      for i := 0 to |excess|
        invariant Valid(store.Rows())
        invariant StopAll(store.Rows(), d, excess[i..], now) == StopAll(old(store.Rows()), d, excess, now)
        invariant SameNodeIds(old(store.Rows()), store.Rows())
      {
        assert excess[i..][1..] == excess[i + 1..];
        assert excess[i] in excess;
        var created := store.Assign(
          excess[i].nodeId, Stop, d.deploymentId, excess[i].containerId, d.serviceName, NO_WORKLOAD, now);
        assert created;
      }
    }

    method ReconcileAll(snapshot: seq<ContainerRecord>, now: Time)
      requires scheduler.store == store && Valid(store.Rows())
      requires forall c :: c in snapshot ==> Registered(store.Rows(), c.nodeId)
      modifies store
      ensures Valid(store.Rows())
      ensures store.Rows() == ReconcileDeployments(
        old(store.Rows()), old(store.deployments), snapshot, now)
      ensures SameNodeIds(old(store.Rows()), store.Rows())
    {
      hide Valid, Choose, ScaleUp, StopAll, Victims, CreateRow, StopRows;
      var deployments := store.deployments;
      for i := 0 to |deployments|
        invariant Valid(store.Rows())
        invariant ReconcileDeployments(store.Rows(), deployments[i..], snapshot, now)
               == ReconcileDeployments(old(store.Rows()), deployments, snapshot, now)
        invariant SameNodeIds(old(store.Rows()), store.Rows())
      {
        assert deployments[i..][1..] == deployments[i + 1..];
        var d := deployments[i];
        var running := Filter(snapshot, RunningOf(d.deploymentId));
        var pendingCreates := PendingCreates(store.Rows(), d.deploymentId);
        var deficit := d.replicas - (|running| + pendingCreates);
        if deficit > 0 {
          ScaleUpBy(d, deficit, now);
        } else if deficit < 0 {
          ScaleDownBy(d, running, -deficit, now);
        }
      }
    }

    method Cleanup(snapshot: seq<ContainerRecord>, now: Time)
      requires Valid(store.Rows())
      requires forall c :: c in snapshot ==> Registered(store.Rows(), c.nodeId)
      modifies store
      ensures Valid(store.Rows())
      ensures store.Rows() == CleanupOrphans(
        old(store.Rows()), snapshot, DeploymentIds(old(store.Rows())), now)
      ensures old(store.assignments) <= store.assignments
      ensures forall i :: |old(store.assignments)| <= i < |store.assignments| ==>
        OrphanRow(store.assignments[i], snapshot, store.deployments, now)
    {
      hide Valid, HasPendingStop, OrphanRow;
      var live := DeploymentIds(store.Rows());
      for i := 0 to |snapshot|
        invariant Valid(store.Rows())
        invariant SameNodeIds(old(store.Rows()), store.Rows())
        invariant CleanupOrphans(store.Rows(), snapshot[i..], live, now)
               == CleanupOrphans(old(store.Rows()), snapshot, live, now)
        invariant store.deployments == old(store.deployments) && old(store.assignments) <= store.assignments
        invariant forall j :: |old(store.assignments)| <= j < |store.assignments| ==>
          OrphanRow(store.assignments[j], snapshot, store.deployments, now)
      {
        assert snapshot[i..][1..] == snapshot[i + 1..];
        var c := snapshot[i];
        assert c in snapshot;
        if !c.status.Running? {
          continue;
        }
        if c.deploymentId != "" && c.deploymentId !in live {
          if HasPendingStop(store.Rows(), c.containerId) {
            continue;
          }
          var created := store.Assign(c.nodeId, Stop, "", c.containerId, c.serviceName, NO_WORKLOAD, now);
          assert created;
          IsOrphanRow(store.assignments[|store.assignments| - 1], c, snapshot, store.deployments, now);
        }
      }
    }

    /** One pass, with the clock read once; no foreign key can fail in it. */
    method Reconcile(now: Time)
      requires scheduler.store == store && Valid(store.Rows())
      modifies store
      ensures Valid(store.Rows())
      ensures store.Rows() == Pass(old(store.Rows()), masterId, now, passCount)
    {
      hide Valid, CheckNodeHealth, ReconcileDeployments, CleanupOrphans, StaleNodes, LoseRows;
      if masterId != "" {
        store.MasterHeartbeat(masterId, now);
      }
      var unhealthy := store.CheckHealth(now);
      if unhealthy != [] {
        HandleFailures(unhealthy);
      }
      var snapshot := store.containers;
      ValidRegisters(store.Rows());
      ReconcileAll(snapshot, now);
      Cleanup(snapshot, now);
      if passCount % 60 == 0 {
        store.ClearOld(now);
      }
    }

    /** One round of the background loop. */
    method RunOnce(now: Time)
      requires scheduler.store == store && Valid(store.Rows())
      modifies this, store
      ensures Valid(store.Rows())
      ensures store.Rows() == Pass(old(store.Rows()), masterId, now, old(passCount))
      ensures passCount == old(passCount) + 1
    {
      Reconcile(now);
      passCount := passCount + 1;
    }
  }

  lemma NothingLost(cs: seq<ContainerRecord>)
    ensures forall j :: 0 <= j < |cs| ==> LostIf(cs[j], cs[j], false)
  {
  }

  lemma LostTwice(v: ContainerRecord, u: ContainerRecord, c: ContainerRecord, ns: seq<Id>, n: Id)
    requires LostIf(u, c, c.nodeId in ns) && LostIf(v, u, u.nodeId == n)
    ensures LostIf(v, c, c.nodeId in ns + [n])
  {
  }

  lemma IsOrphanRow(a: Assignment, c: ContainerRecord, rows: seq<ContainerRecord>, ds: seq<Deployment>, now: Time)
    requires c in rows && c.status.Running? && c.deploymentId != ""
    requires (forall d :: d in ds ==> d.deploymentId != c.deploymentId) && StopRow(a, c, "", c.serviceName, now)
    ensures OrphanRow(a, rows, ds, now)
  {
  }

  lemma ValidRegisters(t: Tables)
    requires Valid(t)
    ensures forall c :: c in t.containers ==> Registered(t, c.nodeId)
  {
  }

  lemma ChoiceIsRegistered(t: Tables, work: Workload)
    requires Choose(t, work).Placed?
    ensures Registered(t, Choose(t, work).decision.node.nodeId)
  {
    ChoiceIsBest(t, work);
    var n := Choose(t, work).decision.node;
    var i :| 0 <= i < |t.nodes| && t.nodes[i] == n;
  }
}
