/**
 The cluster's tables and what each SQL statement does to them.

 A table is the sequence of its rows in the order they were inserted, which is
 also the order of `joined_at` and `created_at`.  A time is a parameter of the
 statement that reads the clock.  A fresh assignment token is the next number.
 */
module Tables {
  import opened Seqs

  type Id = string
  type Time = real

  const NODE_TIMEOUT: Time := 30.0
  const ASSIGNMENT_RETENTION: Time := 3600.0

  datatype Role = Master | Worker
  datatype NodeStatus = Healthy | Unhealthy | Offline

  datatype NodeInfo = NodeInfo(
    nodeId: Id, address: string, role: Role, status: NodeStatus,
    cpuTotal: int, cpuUsed: int, memoryTotal: int, memoryUsed: int,
    lastHeartbeat: Time)
  {
    function CpuAvailable(): int { if cpuTotal - cpuUsed > 0 then cpuTotal - cpuUsed else 0 }

    function MemoryAvailable(): int { if memoryTotal - memoryUsed > 0 then memoryTotal - memoryUsed else 0 }
  }

  /** What a container of a service is to run, and with which resources. */
  datatype Workload = Workload(
    image: string, command: seq<string>, cpu: int, memory: int, env: map<string, string>)

  const NO_WORKLOAD := Workload("", [], 50, 64, map[])

  datatype Deployment = Deployment(deploymentId: Id, serviceName: string, replicas: int, work: Workload)

  datatype ContainerStatus = Created | Starting | Running | Stopped | Error | Lost | Unknown

  datatype ContainerRecord = ContainerRecord(
    containerId: Id, nodeId: Id, deploymentId: Id, serviceName: string,
    status: ContainerStatus, startedAt: Time)
  {
    predicate IsActive() { status.Running? || status.Starting? }
  }

  datatype Action = Create | Stop

  datatype Assignment = Assignment(
    assignmentId: nat, nodeId: Id, action: Action, deploymentId: Id, containerId: Id,
    serviceName: string, work: Workload, createdAt: Time, acknowledged: bool)

  datatype Tables = Tables(
    nodes: seq<NodeInfo>, deployments: seq<Deployment>,
    containers: seq<ContainerRecord>, assignments: seq<Assignment>,
    nextId: nat)

  const EMPTY := Tables([], [], [], [], 0)

  // ---- Row predicates ------------------------------------------------------

  function OnNode(n: Id): ContainerRecord -> bool { (c: ContainerRecord) => c.nodeId == n }

  function NotOnNode(n: Id): ContainerRecord -> bool { (c: ContainerRecord) => c.nodeId != n }

  function OtherContainer(id: Id): ContainerRecord -> bool { (c: ContainerRecord) => c.containerId != id }

  function RunningOn(n: Id): ContainerRecord -> bool {
    (c: ContainerRecord) => c.nodeId == n && c.status.Running?
  }

  function RunningOf(d: Id): ContainerRecord -> bool {
    (c: ContainerRecord) => c.deploymentId == d && c.status.Running?
  }

  function AssignmentElsewhere(n: Id): Assignment -> bool { (a: Assignment) => a.nodeId != n }

  function PendingOn(n: Id): Assignment -> bool {
    (a: Assignment) => a.nodeId == n && !a.acknowledged
  }

  function PendingCreateOf(d: Id): Assignment -> bool {
    (a: Assignment) => a.deploymentId == d && a.action.Create? && !a.acknowledged
  }

  function PendingStopOf(id: Id): Assignment -> bool {
    (a: Assignment) => a.containerId == id && a.action.Stop? && !a.acknowledged
  }

  function RetainedSince(cutoff: Time): Assignment -> bool {
    (a: Assignment) => !(a.acknowledged && a.createdAt < cutoff)
  }

  function StaleBefore(cutoff: Time): NodeInfo -> bool {
    (n: NodeInfo) => n.status.Healthy? && n.lastHeartbeat < cutoff
  }

  function IsHealthy(): NodeInfo -> bool { (n: NodeInfo) => n.status.Healthy? }

  function OtherNode(id: Id): NodeInfo -> bool { (n: NodeInfo) => n.nodeId != id }

  function OtherService(name: string): Deployment -> bool { (d: Deployment) => d.serviceName != name }

  // ---- Queries -------------------------------------------------------------

  predicate Registered(t: Tables, n: Id) { exists i :: 0 <= i < |t.nodes| && t.nodes[i].nodeId == n }

  predicate RegisteredHealthy(t: Tables, n: Id) {
    exists i :: 0 <= i < |t.nodes| && t.nodes[i].nodeId == n && t.nodes[i].status.Healthy?
  }

  /** The ids of the healthy nodes whose heartbeat is over the timeout, in table order. */
  function StaleNodes(t: Tables, now: Time): seq<Id> {
    Map(Filter(t.nodes, StaleBefore(now - NODE_TIMEOUT)), NodeIdOf())
  }

  function PendingCreates(t: Tables, d: Id): nat { Count(t.assignments, PendingCreateOf(d)) }

  function HasPendingStop(t: Tables, id: Id): bool { Count(t.assignments, PendingStopOf(id)) > 0 }

  function PendingAssignments(t: Tables, n: Id): seq<Assignment> { Filter(t.assignments, PendingOn(n)) }

  function DeploymentIds(t: Tables): set<Id> { set d | d in t.deployments :: d.deploymentId }

  // ---- Schema constraints --------------------------------------------------

  function ContainerIdOf(): ContainerRecord -> Id { (c: ContainerRecord) => c.containerId }

  function NodeIdOf(): NodeInfo -> Id { (n: NodeInfo) => n.nodeId }

  function DeploymentIdOf(): Deployment -> Id { (d: Deployment) => d.deploymentId }

  function ServiceNameOf(): Deployment -> string { (d: Deployment) => d.serviceName }

  function AssignmentIdOf(): Assignment -> nat { (a: Assignment) => a.assignmentId }

  /** The primary keys, the unique service name and the foreign keys of the schema. */
  predicate Valid(t: Tables) {
    && DistinctBy(t.nodes, NodeIdOf())
    && DistinctBy(t.deployments, DeploymentIdOf())
    && DistinctBy(t.deployments, ServiceNameOf())
    && DistinctBy(t.containers, ContainerIdOf())
    && DistinctBy(t.assignments, AssignmentIdOf())
    && (forall a :: a in t.assignments ==> a.assignmentId < t.nextId)
    && (forall c :: c in t.containers ==> Registered(t, c.nodeId))
    && (forall a :: a in t.assignments ==> Registered(t, a.nodeId))
  }

  // ---- Updates of one row --------------------------------------------------

  function Rejoined(id: Id, address: string, cpu: int, memory: int, now: Time): NodeInfo -> NodeInfo {
    (n: NodeInfo) =>
      if n.nodeId == id
      then n.(address := address, status := Healthy, cpuTotal := cpu, memoryTotal := memory, lastHeartbeat := now)
      else n
  }

  function Beating(id: Id, cpu: int, memory: int, now: Time): NodeInfo -> NodeInfo {
    (n: NodeInfo) =>
      if n.nodeId == id
      then n.(status := Healthy, lastHeartbeat := now, cpuUsed := cpu, memoryUsed := memory)
      else n
  }

  function MasterBeating(id: Id, now: Time): NodeInfo -> NodeInfo {
    (n: NodeInfo) => if n.nodeId == id && n.role.Master? then n.(lastHeartbeat := now) else n
  }

  function MarkedUnhealthy(id: Id): NodeInfo -> NodeInfo {
    (n: NodeInfo) => if n.nodeId == id then n.(status := Unhealthy) else n
  }

  function Reserving(id: Id, cpu: int, memory: int): NodeInfo -> NodeInfo {
    (n: NodeInfo) =>
      if n.nodeId == id then n.(cpuUsed := n.cpuUsed + cpu, memoryUsed := n.memoryUsed + memory) else n
  }

  function MarkedLost(id: Id): ContainerRecord -> ContainerRecord {
    (c: ContainerRecord) => if c.containerId == id then c.(status := Lost) else c
  }

  function Acknowledging(id: nat): Assignment -> Assignment {
    (a: Assignment) => if a.assignmentId == id then a.(acknowledged := true) else a
  }

  function Rescaled(name: string, replicas: int): Deployment -> Deployment {
    (d: Deployment) => if d.serviceName == name then d.(replicas := replicas) else d
  }

  function Redeploying(dep: Deployment): Deployment -> Deployment {
    (d: Deployment) =>
      if d.serviceName == dep.serviceName then d.(replicas := dep.replicas, work := dep.work) else d
  }

  // ---- Statements ----------------------------------------------------------

  function RegisterNode(t: Tables, id: Id, address: string, role: Role, cpu: int, memory: int, now: Time): Tables {
    if Registered(t, id)
    then t.(nodes := Map(t.nodes, Rejoined(id, address, cpu, memory, now)))
    else t.(nodes := t.nodes + [NodeInfo(id, address, role, Healthy, cpu, 0, memory, 0, now)])
  }

  /** Insert or replace, row by row; a row's node is the one that reports it. */
  function InsertReported(cs: seq<ContainerRecord>, rows: seq<ContainerRecord>, n: Id): seq<ContainerRecord>
    decreases |rows|
  {
    if rows == [] then cs
    else
      InsertReported(
        Filter(cs, OtherContainer(rows[0].containerId)) + [rows[0].(nodeId := n)], rows[1..], n)
  }

  /** A heartbeat of an unknown node changes nothing: its containers are refused by the foreign key. */
  function UpdateHeartbeat(t: Tables, n: Id, rows: seq<ContainerRecord>, cpu: int, memory: int, now: Time): Tables {
    if !Registered(t, n) then t
    else
      t.(nodes := Map(t.nodes, Beating(n, cpu, memory, now)),
         containers := InsertReported(Filter(t.containers, NotOnNode(n)), rows, n))
  }

  function MarkNodeUnhealthy(t: Tables, n: Id): Tables {
    t.(nodes := Map(t.nodes, MarkedUnhealthy(n)))
  }

  function MarkUnhealthyAll(t: Tables, ids: seq<Id>): Tables
    decreases |ids|
  {
    if ids == [] then t else MarkUnhealthyAll(MarkNodeUnhealthy(t, ids[0]), ids[1..])
  }

  function CheckNodeHealth(t: Tables, now: Time): Tables {
    MarkUnhealthyAll(t, StaleNodes(t, now))
  }

  function RemoveNode(t: Tables, n: Id): Tables {
    t.(assignments := Filter(t.assignments, AssignmentElsewhere(n)),
       containers := Filter(t.containers, NotOnNode(n)),
       nodes := Filter(t.nodes, OtherNode(n)))
  }

  function MarkContainerLost(t: Tables, id: Id): Tables {
    t.(containers := Map(t.containers, MarkedLost(id)))
  }

  function HasService(t: Tables, name: string): bool {
    exists i :: 0 <= i < |t.deployments| && t.deployments[i].serviceName == name
  }

  /** An existing service keeps its deployment id; a clash of ids between services is refused. */
  function CreateDeployment(t: Tables, dep: Deployment): Tables {
    if HasService(t, dep.serviceName) then t.(deployments := Map(t.deployments, Redeploying(dep)))
    else if dep.deploymentId in DeploymentIds(t) then t
    else t.(deployments := t.deployments + [dep])
  }

  function UpdateReplicas(t: Tables, name: string, replicas: int): Tables {
    t.(deployments := Map(t.deployments, Rescaled(name, replicas)))
  }

  function DeleteDeployment(t: Tables, name: string): Tables {
    t.(deployments := Filter(t.deployments, OtherService(name)))
  }

  /** The foreign key refuses an assignment for an unknown node. */
  function CreateAssignment(t: Tables, n: Id, action: Action, d: Id, c: Id, service: string,
                            work: Workload, now: Time): Tables
  {
    if !Registered(t, n) then t
    else
      t.(assignments := t.assignments + [Assignment(t.nextId, n, action, d, c, service, work, now, false)],
         nextId := t.nextId + 1)
  }

  function AcknowledgeAssignment(t: Tables, id: nat): Tables {
    t.(assignments := Map(t.assignments, Acknowledging(id)))
  }

  function ClearOldAssignments(t: Tables, now: Time): Tables {
    t.(assignments := Filter(t.assignments, RetainedSince(now - ASSIGNMENT_RETENTION)))
  }

  function ReserveResources(t: Tables, n: Id, cpu: int, memory: int): Tables {
    t.(nodes := Map(t.nodes, Reserving(n, cpu, memory)))
  }

  function UpdateMasterHeartbeat(t: Tables, n: Id, now: Time): Tables {
    t.(nodes := Map(t.nodes, MasterBeating(n, now)))
  }
}
