/**
 When every placement finds room: a healthy worker that could take everything missing
 is enough.  With that, convergence needs nothing to be known about what a pass will do.
 */
module EnoughRoom {
  import opened Seqs
  import opened Tables
  import opened StateStore
  import opened Scheduling
  import opened Reconciliation
  import opened PassMachine
  import opened PassProperties
  import opened PassIdempotence
  import opened AgentRound
  import opened Convergence

  function CpuOf(): Deployment -> int { (d: Deployment) => d.work.cpu }

  function MemoryOf(): Deployment -> int { (d: Deployment) => d.work.memory }

  function Missing(t: Tables, d: Deployment, snapshot: seq<ContainerRecord>): nat {
    if Deficit(t, d, snapshot) > 0 then Deficit(t, d, snapshot) else 0
  }

  /** What all missing replicas together would take. */
  function Demand(t: Tables, ds: seq<Deployment>, snapshot: seq<ContainerRecord>, cost: Deployment -> int): int
    decreases |ds|
  {
    if ds == [] then 0
    else Missing(t, ds[0], snapshot) * cost(ds[0]) + Demand(t, ds[1..], snapshot, cost)
  }

  /** Row `i` is a healthy worker with that much left. */
  predicate Roomy(t: Tables, i: nat, cpu: int, memory: int) {
    && i < |t.nodes| && t.nodes[i].status.Healthy? && t.nodes[i].role.Worker?
    && t.nodes[i].CpuAvailable() >= cpu && t.nodes[i].MemoryAvailable() >= memory
  }

  predicate WorkerNode(t: Tables, n: Id) {
    exists j :: 0 <= j < |t.nodes| && t.nodes[j].nodeId == n && t.nodes[j].role.Worker?
  }

  /** Every worker has an agent, and the creates since `since` are all with agents. */
  ghost function Staffed(agents: seq<Id>, since: nat): Tables -> bool {
    (t: Tables) =>
      && (forall n :: WorkerNode(t, n) ==> n in agents)
      && (forall a :: a in t.assignments && a.action.Create? && a.assignmentId >= since ==> a.nodeId in agents)
  }

  predicate Sensible(d: Deployment) { d.work.cpu >= 0 && d.work.memory >= 0 }

  // ---- One deployment ------------------------------------------------------

  lemma RoomIsPlaced(t: Tables, work: Workload, i: nat)
    requires Roomy(t, i, work.cpu, work.memory)
    ensures Choose(t, work).Placed? && WorkerNode(t, Choose(t, work).decision.node.nodeId)
  {
    hide Choose, Score, Eligible;
    RefusedIffNoRoom(t, work);
    assert t.nodes[i] in t.nodes && Fits(work)(t.nodes[i]);
    ChoiceIsBest(t, work);
    var n := Choose(t, work).decision.node;
    var j :| 0 <= j < |t.nodes| && t.nodes[j] == n;
  }

  lemma PlaceLeavesRoom(t: Tables, d: Deployment, n: Id, now: Time, i: nat, cpu: int, memory: int)
    requires Sensible(d) && cpu >= 0 && memory >= 0
    requires Roomy(t, i, cpu + d.work.cpu, memory + d.work.memory)
    ensures Roomy(Place(t, d, n, now), i, cpu, memory)
  {
    var v := Place(t, d, n, now);
    assert v.nodes[i] == Reserving(n, d.work.cpu, d.work.memory)(t.nodes[i]);
  }

  lemma PlaceIsStaffed(t: Tables, d: Deployment, n: Id, now: Time, agents: seq<Id>, since: nat)
    requires Staffed(agents, since)(t) && WorkerNode(t, n)
    ensures Staffed(agents, since)(Place(t, d, n, now))
  {
    var v := Place(t, d, n, now);
    forall m | WorkerNode(v, m) ensures m in agents {
      var j :| 0 <= j < |v.nodes| && v.nodes[j].nodeId == m && v.nodes[j].role.Worker?;
      assert v.nodes[j] == Reserving(n, d.work.cpu, d.work.memory)(t.nodes[j]);
      assert WorkerNode(t, m);
    }
  }

  /** With room for all of them, all missing replicas are placed, and on workers. */
  lemma {:induction false} ScaleUpWithRoom(
    t: Tables, d: Deployment, count: nat, now: Time, i: nat, cpu: int, memory: int,
    agents: seq<Id>, since: nat)
    requires Sensible(d) && cpu >= 0 && memory >= 0 && Staffed(agents, since)(t)
    requires Roomy(t, i, cpu + count * d.work.cpu, memory + count * d.work.memory)
    ensures var u := ScaleUp(t, d, count, now);
      && PendingCreates(u, d.deploymentId) == PendingCreates(t, d.deploymentId) + count
      && Roomy(u, i, cpu, memory) && Staffed(agents, since)(u)
    decreases count
  {
    hide Choose, Place, PendingCreates, Staffed, Sensible, Roomy;
    if count != 0 {
      OneOff(count, d.work.cpu);
      OneOff(count, d.work.memory);
      var restCpu, restMemory := cpu + (count - 1) * d.work.cpu, memory + (count - 1) * d.work.memory;
      assert restCpu >= 0 && restMemory >= 0 by { NotNegative(d, count - 1); }
      LessRoom(t, i, restCpu + d.work.cpu, restMemory + d.work.memory, d.work.cpu, d.work.memory);
      RoomIsPlaced(t, d.work, i);
      ChoiceIsRegistered(t, d.work);
      var n := Choose(t, d.work).decision.node.nodeId;
      PlacePendsOne(t, d, n, now, d.deploymentId);
      PlaceLeavesRoom(t, d, n, now, i, restCpu, restMemory);
      PlaceIsStaffed(t, d, n, now, agents, since);
      ScaleUpWithRoom(Place(t, d, n, now), d, count - 1, now, i, cpu, memory, agents, since);
    }
  }

  lemma OneOff(count: nat, x: int)
    requires count > 0
    ensures count * x == (count - 1) * x + x
  {
  }

  lemma NotNegative(d: Deployment, count: nat)
    requires Sensible(d)
    ensures count * d.work.cpu >= 0 && count * d.work.memory >= 0
  {
  }

  lemma LessRoom(t: Tables, i: nat, cpu: int, memory: int, lessCpu: int, lessMemory: int)
    requires Roomy(t, i, cpu, memory) && lessCpu <= cpu && lessMemory <= memory
    ensures Roomy(t, i, lessCpu, lessMemory)
  {
  }

  lemma {:induction false} StopAllKeepsRoom(
    t: Tables, d: Deployment, victims: seq<ContainerRecord>, now: Time, agents: seq<Id>, since: nat)
    requires Staffed(agents, since)(t)
    ensures var u := StopAll(t, d, victims, now);
      u.nodes == t.nodes && Staffed(agents, since)(u)
    decreases |victims|
  {
    if victims != [] {
      var u := StopOne(t, d, victims[0], now);
      assert forall n :: WorkerNode(u, n) <==> WorkerNode(t, n);
      StopAllKeepsRoom(u, d, victims[1..], now, agents, since);
    }
  }

  /** One deployment with room for what it misses and for something else. */
  lemma OneWithRoom(
    t: Tables, d: Deployment, snapshot: seq<ContainerRecord>, now: Time, i: nat, cpu: int, memory: int,
    agents: seq<Id>, since: nat)
    requires Sensible(d) && cpu >= 0 && memory >= 0 && Staffed(agents, since)(t)
    requires Roomy(t, i, Missing(t, d, snapshot) * d.work.cpu + cpu, Missing(t, d, snapshot) * d.work.memory + memory)
    ensures var u := ReconcileOne(t, d, snapshot, now);
      && Deficit(u, d, snapshot) <= 0
      && Roomy(u, i, cpu, memory) && Staffed(agents, since)(u)
  {
    hide ScaleUp, StopAll, Victims, Staffed, PendingCreates;
    var deficit := Deficit(t, d, snapshot);
    if deficit > 0 {
      ScaleUpWithRoom(t, d, deficit, now, i, cpu, memory, agents, since);
    } else if deficit < 0 {
      var victims := Victims(Filter(snapshot, RunningOf(d.deploymentId)), -deficit);
      StopAllKeepsRoom(t, d, victims, now, agents, since);
      StopAllPendsNoCreate(t, d, victims, now, d.deploymentId);
    }
  }

  // ---- All deployments -----------------------------------------------------

  lemma {:induction false} DemandNotNegative(t: Tables, ds: seq<Deployment>, snapshot: seq<ContainerRecord>)
    requires forall d :: d in ds ==> Sensible(d)
    ensures forall cost :: cost in [CpuOf(), MemoryOf()] ==> Demand(t, ds, snapshot, cost) >= 0
    decreases |ds|
  {
    hide Missing;
    if ds != [] {
      assert ds[0] in ds && forall d :: d in ds[1..] ==> d in ds;
      NotNegative(ds[0], Missing(t, ds[0], snapshot));
      DemandNotNegative(t, ds[1..], snapshot);
    }
  }

  /** The demand of deployments whose pending creates are the same is the same. */
  lemma {:induction false} DemandFrame(
    t: Tables, u: Tables, ds: seq<Deployment>, snapshot: seq<ContainerRecord>, cost: Deployment -> int)
    requires forall d :: d in ds ==> PendingCreates(u, d.deploymentId) == PendingCreates(t, d.deploymentId)
    ensures Demand(u, ds, snapshot, cost) == Demand(t, ds, snapshot, cost)
    decreases |ds|
  {
    hide PendingCreates;
    if ds != [] {
      assert ds[0] in ds && forall d :: d in ds[1..] ==> d in ds;
      DemandFrame(t, u, ds[1..], snapshot, cost);
    }
  }

  lemma {:induction false} ScalingPendsOthersNot(
    t: Tables, ds: seq<Deployment>, snapshot: seq<ContainerRecord>, now: Time, id: Id)
    requires forall d :: d in ds ==> d.deploymentId != id
    ensures PendingCreates(ReconcileDeployments(t, ds, snapshot, now), id) == PendingCreates(t, id)
    decreases |ds|
  {
    hide ReconcileOne, PendingCreates;
    if ds != [] {
      assert ds[0] in ds && forall d :: d in ds[1..] ==> d in ds;
      ReconcileOnePendsOthersNot(t, ds[0], snapshot, now, id);
      ScalingPendsOthersNot(ReconcileOne(t, ds[0], snapshot, now), ds[1..], snapshot, now, id);
    }
  }

  lemma TailDistinct(ds: seq<Deployment>)
    requires DistinctBy(ds, DeploymentIdOf()) && ds != []
    ensures DistinctBy(ds[1..], DeploymentIdOf())
    ensures forall d :: d in ds[1..] ==> d in ds && d.deploymentId != ds[0].deploymentId
  {
    forall d | d in ds[1..] ensures d in ds && d.deploymentId != ds[0].deploymentId {
      var i :| 0 <= i < |ds[1..]| && ds[1..][i] == d;
      assert ds[i + 1] == d && DeploymentIdOf()(ds[0]) != DeploymentIdOf()(ds[i + 1]);
    }
  }

  /** A worker with room for the whole demand: after the pass nothing is missing anywhere. */
  lemma {:induction false} ScalingWithRoom(
    t: Tables, ds: seq<Deployment>, snapshot: seq<ContainerRecord>, now: Time, i: nat,
    agents: seq<Id>, since: nat)
    requires DistinctBy(ds, DeploymentIdOf()) && (forall d :: d in ds ==> Sensible(d)) && Staffed(agents, since)(t)
    requires Roomy(t, i, Demand(t, ds, snapshot, CpuOf()), Demand(t, ds, snapshot, MemoryOf()))
    ensures var u := ReconcileDeployments(t, ds, snapshot, now);
      (forall d :: d in ds ==> Deficit(u, d, snapshot) <= 0) && Staffed(agents, since)(u)
    decreases |ds|
  {
    hide ReconcileOne, PendingCreates, Staffed, Sensible, Missing, DistinctBy, Roomy;
    if ds != [] {
      var d, rest := ds[0], ds[1..];
      var u := ReconcileOne(t, d, snapshot, now);
      TailDistinct(ds);
      assert d in ds;
      DemandNotNegative(t, rest, snapshot);
      OneWithRoom(t, d, snapshot, now, i,
                  Demand(t, rest, snapshot, CpuOf()), Demand(t, rest, snapshot, MemoryOf()), agents, since);
      forall x | x in rest ensures PendingCreates(u, x.deploymentId) == PendingCreates(t, x.deploymentId) {
        ReconcileOnePendsOthersNot(t, d, snapshot, now, x.deploymentId);
      }
      DemandFrame(t, u, rest, snapshot, CpuOf());
      DemandFrame(t, u, rest, snapshot, MemoryOf());
      ScalingWithRoom(u, rest, snapshot, now, i, agents, since);
      ScalingPendsOthersNot(u, rest, snapshot, now, d.deploymentId);
      forall x | x in ds ensures Deficit(ReconcileDeployments(t, ds, snapshot, now), x, snapshot) <= 0 {
        assert x == d || x in rest;
      }
    }
  }

  // ---- The rest of the pass ------------------------------------------------

  /** Only stops and clearing come after the scaling. */
  lemma {:induction false} CleanupAddsStops(
    t: Tables, rows: seq<ContainerRecord>, live: set<Id>, now: Time, a: Assignment)
    requires a in CleanupOrphans(t, rows, live, now).assignments && a.action.Create?
    ensures a in t.assignments
    decreases |rows|
  {
    hide HasPendingStop;
    if rows != [] {
      CleanupAddsStops(CleanupOne(t, rows[0], live, now), rows[1..], live, now, a);
    }
  }

  lemma {:induction false} CleanupKeepsCreates(
    t: Tables, rows: seq<ContainerRecord>, live: set<Id>, now: Time, id: Id)
    ensures PendingCreates(CleanupOrphans(t, rows, live, now), id) == PendingCreates(t, id)
    decreases |rows|
  {
    hide HasPendingStop, PendingCreates;
    if rows != [] {
      StopPendsNoCreate(t, rows[0].nodeId, "", rows[0].containerId, rows[0].serviceName, now, id);
      CleanupKeepsCreates(CleanupOne(t, rows[0], live, now), rows[1..], live, now, id);
    }
  }

  lemma MaintainKeepsCreates(t: Tables, tick: nat, now: Time, id: Id)
    ensures PendingCreates(Maintain(t, tick, now), id) == PendingCreates(t, id)
  {
    ClearingKeepsPending(t, now, id);
  }

  lemma MaintainAddsNothing(t: Tables, tick: nat, now: Time, a: Assignment)
    requires a in Maintain(t, tick, now).assignments
    ensures a in t.assignments
  {
  }

  /** Some healthy worker has room for everything missing; agents run on the workers and where anything is. */
  ghost predicate HasRoom(c: Cluster, k: Setup, i: nat) {
    && Roomy(c.t, i, Demand(c.t, c.t.deployments, c.t.containers, CpuOf()),
             Demand(c.t, c.t.deployments, c.t.containers, MemoryOf()))
    && (forall d :: d in c.t.deployments ==> Sensible(d))
    && (forall n :: WorkerNode(c.t, n) ==> n in k.agents)
    && (forall a :: a in c.t.assignments && IsPending(a) ==> a.nodeId in k.agents)
  }

  /** The tables before the scaling differ from those before the pass in one heartbeat time. */
  lemma AliveHasRoom(c: Cluster, k: Setup, now: Time, i: nat)
    requires Valid(c.t) && HasRoom(c, k, i)
    ensures var t := KeepMasterAlive(c.t, k.master, now);
      && Roomy(t, i, Demand(t, c.t.deployments, c.t.containers, CpuOf()),
               Demand(t, c.t.deployments, c.t.containers, MemoryOf()))
      && Staffed(k.agents, c.t.nextId)(t)
  {
    var t := KeepMasterAlive(c.t, k.master, now);
    forall n | WorkerNode(t, n) ensures n in k.agents {
      var j :| 0 <= j < |t.nodes| && t.nodes[j].nodeId == n && t.nodes[j].role.Worker?;
      assert c.t.nodes[j].nodeId == n && c.t.nodes[j].role.Worker?;
      assert WorkerNode(c.t, n);
    }
    DemandFrame(c.t, t, c.t.deployments, c.t.containers, CpuOf());
    DemandFrame(c.t, t, c.t.deployments, c.t.containers, MemoryOf());
  }

  /** The scaling part of the pass. */
  lemma {:induction false} ScaledTables(c: Cluster, k: Setup, m: Moment, i: nat, t3: Tables)
    requires Base(c, k) && HasRoom(c, k, i)
    requires t3 == ReconcileDeployments(KeepMasterAlive(c.t, k.master, m.now), c.t.deployments, c.t.containers, m.now)
    ensures forall d :: d in c.t.deployments ==>
      Count(c.t.containers, RunningOf(d.deploymentId)) + PendingCreates(t3, d.deploymentId) >= d.replicas
    ensures forall a :: a in t3.assignments && a.action.Create? && a.assignmentId >= c.t.nextId ==> a.nodeId in k.agents
  {
    var t := KeepMasterAlive(c.t, k.master, m.now);
    AliveHasRoom(c, k, m.now, i);
    hide ReconcileDeployments, PendingCreates;
    ScalingWithRoom(t, c.t.deployments, c.t.containers, m.now, i, k.agents, c.t.nextId);
    forall d | d in c.t.deployments
      ensures Count(c.t.containers, RunningOf(d.deploymentId)) + PendingCreates(t3, d.deploymentId) >= d.replicas
    {
      assert Deficit(t3, d, c.t.containers) <= 0;
    }
  }

  /** Room for the demand makes a round smooth. */
  lemma {:induction false} RoomIsSmooth(c: Cluster, k: Setup, m: Moment, i: nat)
    requires Base(c, k) && NoneStale(c.t, k.master, m.now) && HasRoom(c, k, i)
    ensures Smooth(c, k, m)
  {
    var t3 :=
      ReconcileDeployments(KeepMasterAlive(c.t, k.master, m.now), c.t.deployments, c.t.containers, m.now);
    ScaledTables(c, k, m, i, t3);
    var t4 := CleanupOrphans(t3, c.t.containers, DeploymentIds(t3), m.now);
    var v := Reconciled(c, k, m).t;
    QuietPass(c.t, k, m);
    PassIsDrawn(c.t, k.master, m.now, m.tick);
    assert v == Maintain(t4, m.tick, m.now);
    hide ReconcileDeployments, CleanupOrphans, Maintain, Pass, PendingCreates, Roomy, Demand, Valid, Tidy;
    forall d | d in v.deployments ensures Held(v, d.deploymentId) >= d.replicas {
      CleanupKeepsCreates(t3, c.t.containers, DeploymentIds(t3), m.now, d.deploymentId);
      MaintainKeepsCreates(t4, m.tick, m.now, d.deploymentId);
    }
    forall a | a in v.assignments && IsPending(a) ensures a.nodeId in k.agents {
      if a !in c.t.assignments {
        assert FromRow(c.t, a) && a.assignmentId >= c.t.nextId;
        if a.action.Create? {
          MaintainAddsNothing(t4, m.tick, m.now, a);
          CleanupAddsStops(t3, c.t.containers, DeploymentIds(t3), m.now, a);
        }
      }
    }
  }

  /** Two rounds converge if before each some healthy worker has room for all that is missing. */
  lemma {:induction false} TwoRoundsWithRoomConverge(c: Cluster, k: Setup, m1: Moment, m2: Moment, i: nat, j: nat)
    requires Base(c, k)
    requires NoneStale(c.t, k.master, m1.now) && HasRoom(c, k, i)
    requires NoneStale(Round(c, k, m1).t, k.master, m2.now) && HasRoom(Round(c, k, m1), k, j)
    ensures Converged(Round(Round(c, k, m1), k, m2), k)
  {
    hide HasRoom, Converged, Base, Smooth, Round;
    RoomIsSmooth(c, k, m1, i);
    assert Base(Round(c, k, m1), k) by { RoundRests(c, k, m1); }
    RoomIsSmooth(Round(c, k, m1), k, m2, j);
    TwoRoundsConverge(c, k, m1, m2);
  }
}
