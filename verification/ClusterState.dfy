/**
 The state store: one object that owns the tables, one method per public
 operation.  Every method keeps the schema constraints.
 */
module StateStore {
  import opened Seqs
  import opened Tables

  // ---- The statements keep the schema constraints --------------------------

  lemma MapKeepsNodes(t: Tables, f: NodeInfo -> NodeInfo)
    requires Valid(t)
    requires forall n :: n in t.nodes ==> f(n).nodeId == n.nodeId
    ensures Valid(t.(nodes := Map(t.nodes, f)))
    ensures forall n :: Registered(t, n) <==> Registered(t.(nodes := Map(t.nodes, f)), n)
  {
    var u := t.(nodes := Map(t.nodes, f));
    assert forall i :: 0 <= i < |t.nodes| ==> u.nodes[i].nodeId == t.nodes[i].nodeId;
  }

  /** The row of a node that joins, and the rows of the others. */
  lemma JoinedRow(t: Tables, id: Id, address: string, role: Role, cpu: int, memory: int, now: Time)
    ensures var u := RegisterNode(t, id, address, role, cpu, memory, now);
      && RegisteredHealthy(u, id)
      && (forall n :: n in u.nodes && n.nodeId == id ==>
            n.status.Healthy? && n.cpuTotal == cpu && n.memoryTotal == memory && n.lastHeartbeat == now)
      && (forall n :: n in u.nodes && n.nodeId != id ==> n in t.nodes)
      && (forall n :: n in t.nodes && n.nodeId != id ==> n in u.nodes)
      && (Registered(t, id) ==> |u.nodes| == |t.nodes|)
  {
    var u := RegisterNode(t, id, address, role, cpu, memory, now);
    if Registered(t, id) {
      var f := Rejoined(id, address, cpu, memory, now);
      var i :| 0 <= i < |t.nodes| && t.nodes[i].nodeId == id;
      assert u.nodes[i] == f(t.nodes[i]);
      forall n | n in t.nodes && n.nodeId != id ensures n in u.nodes {
        var j :| 0 <= j < |t.nodes| && t.nodes[j] == n;
        assert u.nodes[j] == n;
      }
      forall n | n in u.nodes && n.nodeId != id ensures n in t.nodes {
        var j :| 0 <= j < |u.nodes| && u.nodes[j] == n;
        assert t.nodes[j] == n;
      }
    } else {
      assert u.nodes[|t.nodes|].nodeId == id;
    }
  }

  lemma RegisterNodeKeepsValid(t: Tables, id: Id, address: string, role: Role, cpu: int, memory: int, now: Time)
    requires Valid(t)
    ensures var u := RegisterNode(t, id, address, role, cpu, memory, now);
      && RegisteredHealthy(u, id)
      && (forall n :: n in u.nodes && n.nodeId == id ==>
            n.status.Healthy? && n.cpuTotal == cpu && n.memoryTotal == memory && n.lastHeartbeat == now)
      && (forall n :: n in u.nodes && n.nodeId != id ==> n in t.nodes)
      && (forall n :: n in t.nodes && n.nodeId != id ==> n in u.nodes)
      && (Registered(t, id) ==> |u.nodes| == |t.nodes|)
    ensures Valid(RegisterNode(t, id, address, role, cpu, memory, now))
  {
    JoinedRow(t, id, address, role, cpu, memory, now);
    if Registered(t, id) {
      MapKeepsNodes(t, Rejoined(id, address, cpu, memory, now));
    } else {
      var u := RegisterNode(t, id, address, role, cpu, memory, now);
      forall n | Registered(t, n) ensures Registered(u, n) {
        var i :| 0 <= i < |t.nodes| && t.nodes[i].nodeId == n;
        assert u.nodes[i].nodeId == n;
      }
    }
  }

  lemma ReplacedRowIsUnique(cs: seq<ContainerRecord>, r: ContainerRecord)
    requires DistinctBy(cs, ContainerIdOf())
    ensures DistinctBy(Filter(cs, OtherContainer(r.containerId)) + [r], ContainerIdOf())
  {
    var kept := Filter(cs, OtherContainer(r.containerId));
    FilterDistinct(cs, OtherContainer(r.containerId), ContainerIdOf());
    forall i | 0 <= i < |kept| ensures kept[i].containerId != r.containerId {
      assert OtherContainer(r.containerId)(kept[i]);
    }
  }

  lemma {:induction false} InsertReportedDistinct(cs: seq<ContainerRecord>, rows: seq<ContainerRecord>, n: Id)
    requires DistinctBy(cs, ContainerIdOf())
    ensures DistinctBy(InsertReported(cs, rows, n), ContainerIdOf())
    decreases |rows|
  {
    if rows != [] {
      ReplacedRowIsUnique(cs, rows[0].(nodeId := n));
      InsertReportedDistinct(
        Filter(cs, OtherContainer(rows[0].containerId)) + [rows[0].(nodeId := n)], rows[1..], n);
    }
  }

  /** A row of the table was there before or is one of the reported rows. */
  lemma {:induction false} InsertReportedOrigin(
    cs: seq<ContainerRecord>, rows: seq<ContainerRecord>, n: Id, c: ContainerRecord)
    requires c in InsertReported(cs, rows, n)
    ensures c in cs || exists r :: r in rows && c == r.(nodeId := n)
    decreases |rows|
  {
    if rows != [] {
      InsertReportedOrigin(
        Filter(cs, OtherContainer(rows[0].containerId)) + [rows[0].(nodeId := n)], rows[1..], n, c);
      assert rows[0] in rows;
    }
  }

  /** A row that no reported row replaces stays. */
  lemma {:induction false} InsertReportedKeeps(
    cs: seq<ContainerRecord>, rows: seq<ContainerRecord>, n: Id, c: ContainerRecord)
    requires c in cs
    requires forall r :: r in rows ==> r.containerId != c.containerId
    ensures c in InsertReported(cs, rows, n)
    decreases |rows|
  {
    if rows != [] {
      assert rows[0] in rows;
      InsertReportedKeeps(
        Filter(cs, OtherContainer(rows[0].containerId)) + [rows[0].(nodeId := n)], rows[1..], n, c);
    }
  }

  /** Every reported container has a row afterwards, and it is a reported one. */
  lemma {:induction false} InsertReportedShows(
    cs: seq<ContainerRecord>, rows: seq<ContainerRecord>, n: Id, id: Id)
    requires exists r :: r in rows && r.containerId == id
    ensures exists r :: r in rows && r.containerId == id && r.(nodeId := n) in InsertReported(cs, rows, n)
    decreases |rows|
  {
    var next := Filter(cs, OtherContainer(rows[0].containerId)) + [rows[0].(nodeId := n)];
    if exists r :: r in rows[1..] && r.containerId == id {
      InsertReportedShows(next, rows[1..], n, id);
      var r :| r in rows[1..] && r.containerId == id && r.(nodeId := n) in InsertReported(next, rows[1..], n);
      assert r in rows;
    } else {
      assert rows[0] in rows && rows[0].containerId == id;
      InsertReportedKeeps(next, rows[1..], n, rows[0].(nodeId := n));
    }
  }

  /** No report from `from` on names this container. */
  predicate Unreported(rows: seq<ContainerRecord>, from: nat, id: Id) {
    forall j :: from <= j < |rows| ==> rows[j].containerId != id
  }

  /** `c` is what the last report of its id says, under the reporting node. */
  predicate Reported(rows: seq<ContainerRecord>, n: Id, c: ContainerRecord) {
    exists i :: 0 <= i < |rows| && c == rows[i].(nodeId := n) && Unreported(rows, i + 1, c.containerId)
  }

  /** Exactly the rows that no report names and, for each id reported, the last report of it. */
  lemma {:induction false} InsertReportedIff(
    cs: seq<ContainerRecord>, rows: seq<ContainerRecord>, n: Id, c: ContainerRecord)
    ensures c in InsertReported(cs, rows, n) <==>
      (c in cs && Unreported(rows, 0, c.containerId)) || Reported(rows, n, c)
    decreases |rows|
  {
    if rows != [] {
      var next := Filter(cs, OtherContainer(rows[0].containerId)) + [rows[0].(nodeId := n)];
      InsertReportedIff(next, rows[1..], n, c);
      assert c in next <==> (c in cs && c.containerId != rows[0].containerId) || c == rows[0].(nodeId := n);
      hide Filter, InsertReported;
      assert Unreported(rows, 1, c.containerId) <==> Unreported(rows[1..], 0, c.containerId) by {
        assert forall j :: 1 <= j < |rows| ==> rows[j] == rows[1..][j - 1];
      }
      ReportedTail(rows, n, c);
    }
  }

  lemma ReportedTail(rows: seq<ContainerRecord>, n: Id, c: ContainerRecord)
    requires rows != []
    ensures Reported(rows, n, c) <==>
      (c == rows[0].(nodeId := n) && Unreported(rows, 1, c.containerId)) || Reported(rows[1..], n, c)
  {
    assert forall j :: 1 <= j < |rows| ==> rows[j] == rows[1..][j - 1];
    forall i | 0 <= i < |rows[1..]| && rows[1..][i].containerId == c.containerId
      ensures Unreported(rows[1..], i + 1, c.containerId) <==> Unreported(rows, i + 2, c.containerId)
    {
      if Unreported(rows[1..], i + 1, c.containerId) {
        forall j | i + 2 <= j < |rows| ensures rows[j].containerId != c.containerId {
          assert rows[j] == rows[1..][j - 1];
        }
      } else {
        var j :| i + 1 <= j < |rows[1..]| && rows[1..][j].containerId == c.containerId;
        assert rows[j + 1] == rows[1..][j];
      }
    }
    if i :| 0 <= i < |rows| && c == rows[i].(nodeId := n) && Unreported(rows, i + 1, c.containerId) {
      if i > 0 {
        assert rows[1..][i - 1] == rows[i] && Unreported(rows[1..], i, c.containerId);
      }
    }
    if i :| 0 <= i < |rows[1..]| && c == rows[1..][i].(nodeId := n) && Unreported(rows[1..], i + 1, c.containerId) {
      assert rows[i + 1] == rows[1..][i];
    }
  }

  lemma UpdateHeartbeatKeepsValid(t: Tables, n: Id, rows: seq<ContainerRecord>, cpu: int, memory: int, now: Time)
    requires Valid(t)
    ensures Valid(UpdateHeartbeat(t, n, rows, cpu, memory, now))
    ensures !Registered(t, n) ==> UpdateHeartbeat(t, n, rows, cpu, memory, now) == t
  {
    if Registered(t, n) {
      MapKeepsNodes(t, Beating(n, cpu, memory, now));
      FilterDistinct(t.containers, NotOnNode(n), ContainerIdOf());
      var cs := Filter(t.containers, NotOnNode(n));
      InsertReportedDistinct(cs, rows, n);
      forall c | c in InsertReported(cs, rows, n) ensures Registered(t, c.nodeId) {
        InsertReportedOrigin(cs, rows, n, c);
      }
    }
  }

  lemma RemoveNodeKeepsValid(t: Tables, n: Id)
    requires Valid(t)
    ensures Valid(RemoveNode(t, n))
  {
    FilterDistinct(t.nodes, OtherNode(n), NodeIdOf());
    FilterDistinct(t.containers, NotOnNode(n), ContainerIdOf());
    FilterDistinct(t.assignments, AssignmentElsewhere(n), AssignmentIdOf());
    var u := RemoveNode(t, n);
    forall m | m != n && Registered(t, m) ensures Registered(u, m) {
      var i :| 0 <= i < |t.nodes| && t.nodes[i].nodeId == m;
      assert t.nodes[i] in u.nodes;
    }
  }

  lemma CreateAssignmentKeepsValid(t: Tables, n: Id, action: Action, d: Id, c: Id, service: string,
                                   work: Workload, now: Time)
    requires Valid(t)
    ensures Valid(CreateAssignment(t, n, action, d, c, service, work, now))
    ensures !Registered(t, n) ==> CreateAssignment(t, n, action, d, c, service, work, now) == t
    ensures Registered(t, n) ==>
      var u := CreateAssignment(t, n, action, d, c, service, work, now);
      && |u.assignments| == |t.assignments| + 1 && t.assignments <= u.assignments
      && !u.assignments[|t.assignments|].acknowledged
      && forall a :: a in t.assignments ==> a.assignmentId != u.assignments[|t.assignments|].assignmentId
  {
    var u := CreateAssignment(t, n, action, d, c, service, work, now);
    assert forall m :: Registered(t, m) <==> Registered(u, m);
  }

  lemma ClearOldKeepsValid(t: Tables, now: Time)
    requires Valid(t)
    ensures Valid(ClearOldAssignments(t, now))
  {
    FilterDistinct(t.assignments, RetainedSince(now - ASSIGNMENT_RETENTION), AssignmentIdOf());
    var u := ClearOldAssignments(t, now);
    assert forall m :: Registered(t, m) <==> Registered(u, m);
  }

  lemma AcknowledgeKeepsValid(t: Tables, id: nat)
    requires Valid(t)
    ensures Valid(AcknowledgeAssignment(t, id))
  {
    var u := AcknowledgeAssignment(t, id);
    assert forall m :: Registered(t, m) <==> Registered(u, m);
    assert forall i :: 0 <= i < |t.assignments| ==>
      u.assignments[i].assignmentId == t.assignments[i].assignmentId
      && u.assignments[i].nodeId == t.assignments[i].nodeId;
  }

  lemma MarkLostKeepsValid(t: Tables, id: Id)
    requires Valid(t)
    ensures Valid(MarkContainerLost(t, id))
  {
    var u := MarkContainerLost(t, id);
    assert forall m :: Registered(t, m) <==> Registered(u, m);
    assert forall i :: 0 <= i < |t.containers| ==>
      u.containers[i].containerId == t.containers[i].containerId
      && u.containers[i].nodeId == t.containers[i].nodeId;
  }

  lemma DeploymentsKeepValid(t: Tables, ds: seq<Deployment>)
    requires Valid(t)
    requires DistinctBy(ds, DeploymentIdOf()) && DistinctBy(ds, ServiceNameOf())
    ensures Valid(t.(deployments := ds))
  {
    assert forall m :: Registered(t, m) <==> Registered(t.(deployments := ds), m);
  }

  lemma CreateDeploymentKeepsValid(t: Tables, dep: Deployment)
    requires Valid(t)
    ensures Valid(CreateDeployment(t, dep))
    ensures !HasService(t, dep.serviceName) && dep.deploymentId in DeploymentIds(t) ==> CreateDeployment(t, dep) == t
    ensures HasService(t, dep.serviceName) ==>
      && |CreateDeployment(t, dep).deployments| == |t.deployments|
      && forall i :: 0 <= i < |t.deployments| ==>
           CreateDeployment(t, dep).deployments[i] ==
             if t.deployments[i].serviceName != dep.serviceName then t.deployments[i]
             else dep.(deploymentId := t.deployments[i].deploymentId)
    ensures !HasService(t, dep.serviceName) && dep.deploymentId !in DeploymentIds(t) ==>
      CreateDeployment(t, dep).deployments == t.deployments + [dep]
  {
    var u := CreateDeployment(t, dep);
    if HasService(t, dep.serviceName) {
      assert forall i :: 0 <= i < |t.deployments| ==>
        u.deployments[i].deploymentId == t.deployments[i].deploymentId
        && u.deployments[i].serviceName == t.deployments[i].serviceName;
    } else if dep.deploymentId !in DeploymentIds(t) {
      forall i | 0 <= i < |t.deployments| ensures t.deployments[i].deploymentId != dep.deploymentId {
        assert t.deployments[i].deploymentId in DeploymentIds(t);
      }
    }
    DeploymentsKeepValid(t, u.deployments);
  }

  lemma UpdateReplicasKeepsValid(t: Tables, name: string, replicas: int)
    requires Valid(t)
    ensures Valid(UpdateReplicas(t, name, replicas))
  {
    var u := UpdateReplicas(t, name, replicas);
    assert forall i :: 0 <= i < |t.deployments| ==>
      u.deployments[i].deploymentId == t.deployments[i].deploymentId
      && u.deployments[i].serviceName == t.deployments[i].serviceName;
    DeploymentsKeepValid(t, u.deployments);
  }

  lemma DeleteDeploymentKeepsValid(t: Tables, name: string)
    requires Valid(t)
    ensures Valid(DeleteDeployment(t, name))
  {
    FilterDistinct(t.deployments, OtherService(name), DeploymentIdOf());
    FilterDistinct(t.deployments, OtherService(name), ServiceNameOf());
    DeploymentsKeepValid(t, DeleteDeployment(t, name).deployments);
  }

  /** Not healthy and not over the timeout: nothing for the health check to do. */
  predicate HeardInTime(n: NodeInfo, now: Time) { n.status.Healthy? ==> n.lastHeartbeat >= now - NODE_TIMEOUT }

  function Ill(n: NodeInfo): NodeInfo { n.(status := Unhealthy) }

  lemma {:induction false} MarkingRow(t: Tables, ids: seq<Id>, i: nat)
    requires i < |t.nodes|
    ensures |MarkUnhealthyAll(t, ids).nodes| == |t.nodes|
    ensures MarkUnhealthyAll(t, ids).nodes[i] == if t.nodes[i].nodeId in ids then Ill(t.nodes[i]) else t.nodes[i]
    decreases |ids|
  {
    if ids != [] {
      var u := MarkNodeUnhealthy(t, ids[0]);
      assert u.nodes[i] == MarkedUnhealthy(ids[0])(t.nodes[i]);
      MarkingRow(u, ids[1..], i);
      assert ids == [ids[0]] + ids[1..];
    }
  }

  lemma SameIdSameNode(t: Tables, a: NodeInfo, b: NodeInfo)
    requires DistinctBy(t.nodes, NodeIdOf()) && a in t.nodes && b in t.nodes && a.nodeId == b.nodeId
    ensures a == b
  {
    var i :| 0 <= i < |t.nodes| && t.nodes[i] == a;
    var j :| 0 <= j < |t.nodes| && t.nodes[j] == b;
    assert NodeIdOf()(t.nodes[i]) == NodeIdOf()(t.nodes[j]);
  }

  lemma StaleIff(t: Tables, now: Time, i: nat)
    requires DistinctBy(t.nodes, NodeIdOf()) && i < |t.nodes|
    ensures t.nodes[i].nodeId in StaleNodes(t, now) <==> !HeardInTime(t.nodes[i], now)
  {
    var stale := Filter(t.nodes, StaleBefore(now - NODE_TIMEOUT));
    var n := t.nodes[i];
    assert StaleBefore(now - NODE_TIMEOUT)(n) <==> !HeardInTime(n, now);
    forall k | 0 <= k < |stale| && stale[k].nodeId == n.nodeId ensures stale[k] == n {
      assert stale[k] in stale && stale[k] in t.nodes;
      SameIdSameNode(t, stale[k], n);
    }
    if n in stale {
      var k :| 0 <= k < |stale| && stale[k] == n;
      assert StaleNodes(t, now)[k] == n.nodeId;
    }
    assert n.nodeId in StaleNodes(t, now) ==> exists k :: 0 <= k < |stale| && stale[k].nodeId == n.nodeId;
    assert forall k :: 0 <= k < |stale| ==> stale[k] in stale;
  }

  /** Row by row: exactly the healthy nodes over the timeout end unhealthy, and nothing else changes. */
  lemma CheckMarksTheStale(t: Tables, now: Time)
    requires DistinctBy(t.nodes, NodeIdOf())
    ensures var u := CheckNodeHealth(t, now);
      && |u.nodes| == |t.nodes|
      && (forall i :: 0 <= i < |t.nodes| ==>
            u.nodes[i] == if HeardInTime(t.nodes[i], now) then t.nodes[i] else Ill(t.nodes[i]))
      && (forall i :: 0 <= i < |t.nodes| ==>
            (u.nodes[i].status.Healthy? <==>
             t.nodes[i].status.Healthy? && t.nodes[i].lastHeartbeat >= now - NODE_TIMEOUT))
  {
    hide StaleNodes, MarkUnhealthyAll;
    if t.nodes != [] {
      MarkingRow(t, StaleNodes(t, now), 0);
    } else {
      NoRows(t, StaleNodes(t, now));
    }
    forall i | 0 <= i < |t.nodes|
      ensures CheckNodeHealth(t, now).nodes[i] == if HeardInTime(t.nodes[i], now) then t.nodes[i] else Ill(t.nodes[i])
    {
      MarkingRow(t, StaleNodes(t, now), i);
      StaleIff(t, now, i);
    }
  }

  /** A healthy node not heard of for more than 30 seconds is unhealthy, any other as it was. */
  predicate CheckedRow(v: NodeInfo, n: NodeInfo, now: Time) {
    v == if n.status == Healthy && n.lastHeartbeat < now - 30.0 then n.(status := Unhealthy) else n
  }

  /** The same in numbers, and that other tables stay. */
  lemma CheckedRows(t: Tables, now: Time)
    requires Valid(t)
    ensures var u := CheckNodeHealth(t, now);
      && u == t.(nodes := u.nodes) && |u.nodes| == |t.nodes|
      && (forall i :: 0 <= i < |t.nodes| ==> CheckedRow(u.nodes[i], t.nodes[i], now))
      && (forall n :: Registered(t, n) <==> Registered(u, n))
  {
    hide MarkUnhealthyAll, StaleNodes;
    CheckMarksTheStale(t, now);
    MarkingFrame(t, StaleNodes(t, now));
    var u := CheckNodeHealth(t, now);
    assert forall i :: 0 <= i < |t.nodes| ==> u.nodes[i].nodeId == t.nodes[i].nodeId;
  }

  lemma {:induction false} MarkingFrame(t: Tables, ids: seq<Id>)
    ensures MarkUnhealthyAll(t, ids) == t.(nodes := MarkUnhealthyAll(t, ids).nodes)
    decreases |ids|
  {
    if ids != [] {
      MarkingFrame(MarkNodeUnhealthy(t, ids[0]), ids[1..]);
    }
  }

  lemma {:induction false} NoRows(t: Tables, ids: seq<Id>)
    requires t.nodes == []
    ensures MarkUnhealthyAll(t, ids).nodes == []
    decreases |ids|
  {
    if ids != [] {
      NoRows(MarkNodeUnhealthy(t, ids[0]), ids[1..]);
    }
  }

  // ---- The store -----------------------------------------------------------

  class ClusterState {
    var nodes: seq<NodeInfo>
    var deployments: seq<Deployment>
    var containers: seq<ContainerRecord>
    var assignments: seq<Assignment>
    var nextId: nat

    /** The tables of this store as one value. */
    function Rows(): Tables
      reads this
    {
      Tables(nodes, deployments, containers, assignments, nextId)
    }

    constructor ()
      ensures Rows() == EMPTY
    {
      nodes, deployments, containers, assignments, nextId := [], [], [], [], 0;
    }

    method Register(id: Id, address: string, role: Role, cpu: int, memory: int, now: Time)
      requires Valid(Rows())
      modifies this
      ensures Valid(Rows())
      ensures Rows() == RegisterNode(old(Rows()), id, address, role, cpu, memory, now)
      ensures Rows() == old(Rows()).(nodes := nodes)
      ensures Registered(old(Rows()), id) ==> |nodes| == |old(nodes)|
      ensures !Registered(old(Rows()), id) ==>
        nodes == old(nodes) + [NodeInfo(id, address, role, Healthy, cpu, 0, memory, 0, now)]
      ensures forall i :: 0 <= i < |old(nodes)| ==>
        nodes[i] == if old(nodes)[i].nodeId != id then old(nodes)[i] else
          old(nodes)[i].(address := address, status := Healthy, cpuTotal := cpu, memoryTotal := memory, lastHeartbeat := now)
    {
      hide Valid;
      RegisterNodeKeepsValid(Rows(), id, address, role, cpu, memory, now);
      if exists i :: 0 <= i < |nodes| && nodes[i].nodeId == id {
        nodes := Map(nodes, Rejoined(id, address, cpu, memory, now));
      } else {
        nodes := nodes + [NodeInfo(id, address, role, Healthy, cpu, 0, memory, 0, now)];
      }
    }

    method GetHealthyNodes() returns (healthy: seq<NodeInfo>)
      ensures healthy == Filter(nodes, IsHealthy())
      ensures forall n :: n in healthy <==> n in nodes && n.status == Healthy
    {
      healthy := [];
      for i := 0 to |nodes|
        invariant healthy == Filter(nodes[..i], IsHealthy())
      {
        FilterAppend(nodes[..i], nodes[i], IsHealthy());
        assert nodes[..i + 1] == nodes[..i] + [nodes[i]];
        if nodes[i].status.Healthy? {
          healthy := healthy + [nodes[i]];
        }
      }
      assert nodes[..|nodes|] == nodes;
    }

    /**
     One transaction: the node's row, then its containers deleted and inserted one by one.
     For an unknown node no row is touched, and the first insert fails.
     */
    method Heartbeat(n: Id, rows: seq<ContainerRecord>, cpu: int, memory: int, now: Time) returns (accepted: bool)
      requires Valid(Rows())
      modifies this
      ensures Valid(Rows())
      ensures accepted <==> Registered(old(Rows()), n) || rows == []
      ensures Rows() == UpdateHeartbeat(old(Rows()), n, rows, cpu, memory, now)
      ensures Rows() == old(Rows()).(nodes := nodes, containers := containers)
      ensures |nodes| == |old(nodes)| && forall i :: 0 <= i < |nodes| ==>
        nodes[i] == if old(nodes)[i].nodeId != n then old(nodes)[i] else
          old(nodes)[i].(status := Healthy, lastHeartbeat := now, cpuUsed := cpu, memoryUsed := memory)
      ensures Registered(old(Rows()), n) ==> forall c :: c in containers ==>
        (c in old(containers) && c.nodeId != n && Unreported(rows, 0, c.containerId)) || Reported(rows, n, c)
      ensures Registered(old(Rows()), n) ==> forall c ::
        (c in old(containers) && c.nodeId != n && Unreported(rows, 0, c.containerId)) || Reported(rows, n, c) ==>
          c in containers
    {
      hide Valid;
      UpdateHeartbeatKeepsValid(Rows(), n, rows, cpu, memory, now);
      forall c ensures c in InsertReported(Filter(containers, NotOnNode(n)), rows, n) <==>
        (c in Filter(containers, NotOnNode(n)) && Unreported(rows, 0, c.containerId)) || Reported(rows, n, c)
      {
        InsertReportedIff(Filter(containers, NotOnNode(n)), rows, n, c);
      }
      hide Unreported, Reported;
      var known := exists i :: 0 <= i < |nodes| && nodes[i].nodeId == n;
      accepted := known || rows == [];
      if !known {
        return;
      }
      nodes := Map(nodes, Beating(n, cpu, memory, now));
      containers := Filter(containers, NotOnNode(n));
      ghost var cleared := containers;
      for i := 0 to |rows|
        invariant nodes == Map(old(nodes), Beating(n, cpu, memory, now))
        invariant Rows() == old(Rows()).(nodes := nodes, containers := containers)
        invariant InsertReported(containers, rows[i..], n) == InsertReported(cleared, rows, n)
      {
        assert rows[i..][1..] == rows[i + 1..];
        containers := Filter(containers, OtherContainer(rows[i].containerId)) + [rows[i].(nodeId := n)];
      }
    }

    method CheckHealth(now: Time) returns (unhealthy: seq<Id>)
      requires Valid(Rows())
      modifies this
      ensures Valid(Rows())
      ensures unhealthy == StaleNodes(old(Rows()), now)
      ensures Rows() == CheckNodeHealth(old(Rows()), now)
      ensures |nodes| == |old(nodes)|
      ensures forall i :: 0 <= i < |nodes| ==> CheckedRow(nodes[i], old(nodes)[i], now)
      ensures Rows() == old(Rows()).(nodes := nodes)
      ensures forall n :: Registered(old(Rows()), n) <==> Registered(Rows(), n)
    {
      hide Valid, CheckedRow;
      CheckedRows(Rows(), now);
      var stale := StaleNodes(Rows(), now);
      unhealthy := [];
      for i := 0 to |stale|
        invariant Valid(Rows())
        invariant unhealthy == stale[..i]
        invariant MarkUnhealthyAll(Rows(), stale[i..]) == MarkUnhealthyAll(old(Rows()), stale)
      {
        MapKeepsNodes(Rows(), MarkedUnhealthy(stale[i]));
        assert stale[i..][1..] == stale[i + 1..];
        nodes := Map(nodes, MarkedUnhealthy(stale[i]));
        unhealthy := unhealthy + [stale[i]];
      }
    }

    method Remove(n: Id)
      requires Valid(Rows())
      modifies this
      ensures Valid(Rows())
      ensures Rows() == RemoveNode(old(Rows()), n)
      ensures forall x :: x in nodes <==> x in old(nodes) && x.nodeId != n
      ensures forall c :: c in containers <==> c in old(containers) && c.nodeId != n
      ensures forall a :: a in assignments <==> a in old(assignments) && a.nodeId != n
      ensures deployments == old(deployments) && nextId == old(nextId)
    {
      hide Valid;
      RemoveNodeKeepsValid(Rows(), n);
      assignments := Filter(assignments, AssignmentElsewhere(n));
      containers := Filter(containers, NotOnNode(n));
      nodes := Filter(nodes, OtherNode(n));
    }

    /** A clash of ids between services is an error; the caller gets an exception. */
    method Deploy(dep: Deployment) returns (accepted: bool)
      requires Valid(Rows())
      modifies this
      ensures Valid(Rows())
      ensures accepted <==> HasService(old(Rows()), dep.serviceName) || dep.deploymentId !in DeploymentIds(old(Rows()))
      ensures !accepted ==> Rows() == old(Rows())
      ensures Rows() == CreateDeployment(old(Rows()), dep)
      ensures Rows() == old(Rows()).(deployments := deployments)
      ensures HasService(old(Rows()), dep.serviceName) ==>
        |deployments| == |old(deployments)| && forall i :: 0 <= i < |deployments| ==>
          deployments[i] == if old(deployments)[i].serviceName != dep.serviceName then old(deployments)[i]
                            else dep.(deploymentId := old(deployments)[i].deploymentId)
      ensures accepted && !HasService(old(Rows()), dep.serviceName) ==> deployments == old(deployments) + [dep]
    {
      hide Valid;
      CreateDeploymentKeepsValid(Rows(), dep);
      if exists i :: 0 <= i < |deployments| && deployments[i].serviceName == dep.serviceName {
        deployments := Map(deployments, Redeploying(dep));
        return true;
      }
      accepted := dep.deploymentId !in DeploymentIds(Rows());
      if accepted {
        deployments := deployments + [dep];
      }
    }

    method Scale(name: string, replicas: int)
      requires Valid(Rows())
      modifies this
      ensures Valid(Rows())
      ensures Rows() == UpdateReplicas(old(Rows()), name, replicas)
      ensures Rows() == old(Rows()).(deployments := deployments)
      ensures |deployments| == |old(deployments)| && forall i :: 0 <= i < |deployments| ==>
        deployments[i] == if old(deployments)[i].serviceName != name then old(deployments)[i]
                          else old(deployments)[i].(replicas := replicas)
    {
      hide Valid;
      UpdateReplicasKeepsValid(Rows(), name, replicas);
      deployments := Map(deployments, Rescaled(name, replicas));
    }

    method Undeploy(name: string)
      requires Valid(Rows())
      modifies this
      ensures Valid(Rows())
      ensures Rows() == DeleteDeployment(old(Rows()), name)
      ensures Rows() == old(Rows()).(deployments := deployments)
      ensures forall d :: d in deployments <==> d in old(deployments) && d.serviceName != name
    {
      hide Valid;
      DeleteDeploymentKeepsValid(Rows(), name);
      deployments := Filter(deployments, OtherService(name));
    }

    method MarkLost(id: Id)
      requires Valid(Rows())
      modifies this
      ensures Valid(Rows())
      ensures Rows() == MarkContainerLost(old(Rows()), id)
      ensures Rows() == old(Rows()).(containers := containers)
      ensures |containers| == |old(containers)| && forall i :: 0 <= i < |containers| ==>
        containers[i] == if old(containers)[i].containerId != id then old(containers)[i]
                         else old(containers)[i].(status := Lost)
    {
      hide Valid;
      MarkLostKeepsValid(Rows(), id);
      containers := Map(containers, MarkedLost(id));
    }

    /** The foreign key refuses the row, and the caller gets an exception, when the node is unknown. */
    method Assign(n: Id, action: Action, d: Id, c: Id, service: string, work: Workload, now: Time)
      returns (created: bool)
      requires Valid(Rows())
      modifies this
      ensures Valid(Rows())
      ensures created == Registered(old(Rows()), n)
      ensures Rows() == CreateAssignment(old(Rows()), n, action, d, c, service, work, now)
      ensures nodes == old(nodes)
      ensures !created ==> Rows() == old(Rows())
      ensures created ==> Rows() == old(Rows()).(
        assignments := old(assignments) + [Assignment(old(nextId), n, action, d, c, service, work, now, false)],
        nextId := old(nextId) + 1)
    {
      hide Valid;
      CreateAssignmentKeepsValid(Rows(), n, action, d, c, service, work, now);
      created := exists i :: 0 <= i < |nodes| && nodes[i].nodeId == n;
      if created {
        assignments := assignments + [Assignment(nextId, n, action, d, c, service, work, now, false)];
        nextId := nextId + 1;
      }
    }

    method Acknowledge(id: nat)
      requires Valid(Rows())
      modifies this
      ensures Valid(Rows())
      ensures Rows() == AcknowledgeAssignment(old(Rows()), id)
      ensures Rows() == old(Rows()).(assignments := assignments)
      ensures |assignments| == |old(assignments)| && forall i :: 0 <= i < |assignments| ==>
        assignments[i] == if old(assignments)[i].assignmentId != id then old(assignments)[i]
                          else old(assignments)[i].(acknowledged := true)
    {
      hide Valid;
      AcknowledgeKeepsValid(Rows(), id);
      assignments := Map(assignments, Acknowledging(id));
    }

    method ClearOld(now: Time)
      requires Valid(Rows())
      modifies this
      ensures Valid(Rows())
      ensures Rows() == ClearOldAssignments(old(Rows()), now)
      ensures Rows() == old(Rows()).(assignments := assignments)
      ensures forall a :: a in assignments <==>
        a in old(assignments) && (a.acknowledged ==> a.createdAt >= now - 3600.0)
    {
      hide Valid;
      ClearOldKeepsValid(Rows(), now);
      assignments := Filter(assignments, RetainedSince(now - ASSIGNMENT_RETENTION));
    }

    method Reserve(n: Id, cpu: int, memory: int)
      requires Valid(Rows())
      modifies this
      ensures Valid(Rows())
      ensures Rows() == ReserveResources(old(Rows()), n, cpu, memory)
      ensures Rows() == old(Rows()).(nodes := nodes)
      ensures |nodes| == |old(nodes)| && forall i :: 0 <= i < |nodes| ==>
        nodes[i] == if old(nodes)[i].nodeId != n then old(nodes)[i] else
          old(nodes)[i].(cpuUsed := old(nodes)[i].cpuUsed + cpu, memoryUsed := old(nodes)[i].memoryUsed + memory)
      ensures forall m :: Registered(old(Rows()), m) <==> Registered(Rows(), m)
    {
      hide Valid;
      MapKeepsNodes(Rows(), Reserving(n, cpu, memory));
      nodes := Map(nodes, Reserving(n, cpu, memory));
    }

    method MasterHeartbeat(n: Id, now: Time)
      requires Valid(Rows())
      modifies this
      ensures Valid(Rows())
      ensures Rows() == UpdateMasterHeartbeat(old(Rows()), n, now)
      ensures Rows() == old(Rows()).(nodes := nodes)
      ensures |nodes| == |old(nodes)| && forall i :: 0 <= i < |nodes| ==>
        nodes[i] == if old(nodes)[i].nodeId == n && old(nodes)[i].role == Master
                    then old(nodes)[i].(lastHeartbeat := now) else old(nodes)[i]
    {
      hide Valid;
      MapKeepsNodes(Rows(), MasterBeating(n, now));
      nodes := Map(nodes, MasterBeating(n, now));
    }
  }
}
