/**
 What one pass, and any number of passes, do to reservations and replica counts.
 */
module PassProperties {
  import opened Seqs
  import opened Tables
  import opened StateStore
  import opened Scheduling
  import opened Reconciliation
  import opened PassMachine

  // ---- The schema survives -------------------------------------------------

  lemma PlaceKeepsValid(t: Tables, d: Deployment, n: Id, now: Time)
    requires Valid(t)
    ensures Valid(Place(t, d, n, now))
  {
    hide Valid;
    CreateAssignmentKeepsValid(t, n, Create, d.deploymentId, "", d.serviceName, d.work, now);
    MapKeepsValid(CreateAssignment(t, n, Create, d.deploymentId, "", d.serviceName, d.work, now),
                  Reserving(n, d.work.cpu, d.work.memory));
  }

  lemma MapKeepsValid(t: Tables, f: NodeInfo -> NodeInfo)
    requires Valid(t)
    requires forall n :: f(n).nodeId == n.nodeId
    ensures Valid(t.(nodes := Map(t.nodes, f)))
  {
    MapKeepsNodes(t, f);
  }

  lemma AdvanceKeepsValid(c: Config)
    requires c.pass.Busy? && Valid(c.t)
    ensures Valid(Advance(c).t)
  {
    hide Valid, Choose, Place, Registered, HasPendingStop;
    var t, p := c.t, c.pass;
    match p.stage
    case Marking(ids, _) =>
      if ids != [] {
        MapKeepsValid(t, MarkedUnhealthy(ids[0]));
      }
    case Failing(_) =>
    case Losing(rows, _) =>
      if rows != [] && rows[0].IsActive() {
        MarkLostKeepsValid(t, rows[0].containerId);
      }
    case Listing(_) =>
    case Scaling(_, _) =>
    case Placing(d, left, _, _) =>
      if left != 0 && Choose(t, d.work).Placed? {
        PlaceKeepsValid(t, d, Choose(t, d.work).decision.node.nodeId, p.now);
      }
    case Stopping(d, victims, _, _) =>
      if victims != [] {
        var v := victims[0];
        CreateAssignmentKeepsValid(
          t, v.nodeId, Stop, d.deploymentId, v.containerId, d.serviceName, NO_WORKLOAD, p.now);
      }
    case Reaping(rows, live) =>
      if rows == [] {
        ClearOldKeepsValid(t, p.now);
      } else {
        var r := rows[0];
        CreateAssignmentKeepsValid(t, r.nodeId, Stop, "", r.containerId, r.serviceName, NO_WORKLOAD, p.now);
      }
  }

  lemma PassKeepsValid(t: Tables, master: Id, now: Time, tick: nat)
    requires Valid(t)
    ensures Valid(Pass(t, master, now, tick))
    ensures Pass(t, master, now, tick).deployments == t.deployments
  {
    hide Valid, Pass, Advance;
    var inv := (c: Config) => Valid(c.t) && c.t.deployments == t.deployments;
    MapKeepsValid(t, MasterBeating(master, now));
    forall c: Config | inv(c) && c.pass.Busy? ensures inv(Advance(c)) {
      AdvanceKeepsValid(c);
      AdvanceKeepsDeployments(c);
    }
    PassInduction(Begin(t, master, now, tick), inv);
    ValidRegisters(t);
    PassAloneIsPass(t, master, now, tick);
  }

  lemma AdvanceKeepsDeployments(c: Config)
    requires c.pass.Busy?
    ensures Advance(c).t.deployments == c.t.deployments
  {
    hide Choose, Registered, HasPendingStop;
  }

  // ---- Reservations --------------------------------------------------------

  function CpuCreatedOn(n: Id, since: nat): Assignment -> int {
    (a: Assignment) =>
      if a.assignmentId >= since && a.action.Create? && a.nodeId == n then a.work.cpu else 0
  }

  function MemoryCreatedOn(n: Id, since: nat): Assignment -> int {
    (a: Assignment) =>
      if a.assignmentId >= since && a.action.Create? && a.nodeId == n then a.work.memory else 0
  }

  /** Row by row, `u` has reserved what its assignments since `t` create there, and nothing else. */
  ghost predicate Reserves(t: Tables, u: Tables) {
    && |u.nodes| == |t.nodes|
    && u.nextId >= t.nextId
    && (forall a :: a in u.assignments && a.assignmentId >= t.nextId ==> !a.acknowledged)
    && (forall i :: 0 <= i < |t.nodes| ==>
          && u.nodes[i].nodeId == t.nodes[i].nodeId
          && u.nodes[i].role == t.nodes[i].role
          && u.nodes[i].cpuTotal == t.nodes[i].cpuTotal
          && u.nodes[i].memoryTotal == t.nodes[i].memoryTotal
          && u.nodes[i].cpuUsed
             == t.nodes[i].cpuUsed + Total(u.assignments, CpuCreatedOn(t.nodes[i].nodeId, t.nextId))
          && u.nodes[i].memoryUsed
             == t.nodes[i].memoryUsed + Total(u.assignments, MemoryCreatedOn(t.nodes[i].nodeId, t.nextId)))
  }

  lemma NothingReservedYet(t: Tables)
    requires Valid(t)
    ensures Reserves(t, t)
  {
    forall i | 0 <= i < |t.nodes|
      ensures Total(t.assignments, CpuCreatedOn(t.nodes[i].nodeId, t.nextId)) == 0
      ensures Total(t.assignments, MemoryCreatedOn(t.nodes[i].nodeId, t.nextId)) == 0
    {
      TotalZero(t.assignments, CpuCreatedOn(t.nodes[i].nodeId, t.nextId));
      TotalZero(t.assignments, MemoryCreatedOn(t.nodes[i].nodeId, t.nextId));
    }
  }

  /** Heartbeat stamps and health marks reserve nothing. */
  lemma StatusKeepsReserves(t: Tables, u: Tables, f: NodeInfo -> NodeInfo)
    requires Reserves(t, u)
    requires forall n :: f(n) == n.(status := f(n).status, lastHeartbeat := f(n).lastHeartbeat)
    ensures Reserves(t, u.(nodes := Map(u.nodes, f)))
  {
    var v := u.(nodes := Map(u.nodes, f));
    forall i | 0 <= i < |t.nodes|
      ensures v.nodes[i] == u.nodes[i].(status := v.nodes[i].status, lastHeartbeat := v.nodes[i].lastHeartbeat)
    {
      assert v.nodes[i] == f(u.nodes[i]);
    }
  }

  lemma StopKeepsReserves(t: Tables, u: Tables, n: Id, d: Id, c: Id, service: string, now: Time)
    requires Reserves(t, u)
    ensures Reserves(t, CreateAssignment(u, n, Stop, d, c, service, NO_WORKLOAD, now))
  {
    if Registered(u, n) {
      var a := Assignment(u.nextId, n, Stop, d, c, service, NO_WORKLOAD, now, false);
      forall i | 0 <= i < |t.nodes|
        ensures Total(u.assignments + [a], CpuCreatedOn(t.nodes[i].nodeId, t.nextId))
             == Total(u.assignments, CpuCreatedOn(t.nodes[i].nodeId, t.nextId))
        ensures Total(u.assignments + [a], MemoryCreatedOn(t.nodes[i].nodeId, t.nextId))
             == Total(u.assignments, MemoryCreatedOn(t.nodes[i].nodeId, t.nextId))
      {
        TotalAppend(u.assignments, a, CpuCreatedOn(t.nodes[i].nodeId, t.nextId));
        TotalAppend(u.assignments, a, MemoryCreatedOn(t.nodes[i].nodeId, t.nextId));
      }
    }
  }

  /** A create and its reservation move both sides by the same amount. */
  lemma PlaceKeepsReserves(t: Tables, u: Tables, d: Deployment, n: Id, now: Time)
    requires Reserves(t, u) && Registered(u, n)
    ensures Reserves(t, Place(u, d, n, now))
  {
    var a := Assignment(u.nextId, n, Create, d.deploymentId, "", d.serviceName, d.work, now, false);
    var v := Place(u, d, n, now);
    assert v.assignments == u.assignments + [a];
    forall i | 0 <= i < |t.nodes|
      ensures Total(v.assignments, CpuCreatedOn(t.nodes[i].nodeId, t.nextId))
           == Total(u.assignments, CpuCreatedOn(t.nodes[i].nodeId, t.nextId))
              + if t.nodes[i].nodeId == n then d.work.cpu else 0
      ensures Total(v.assignments, MemoryCreatedOn(t.nodes[i].nodeId, t.nextId))
           == Total(u.assignments, MemoryCreatedOn(t.nodes[i].nodeId, t.nextId))
              + if t.nodes[i].nodeId == n then d.work.memory else 0
      ensures v.nodes[i] == Reserving(n, d.work.cpu, d.work.memory)(u.nodes[i])
    {
      TotalAppend(u.assignments, a, CpuCreatedOn(t.nodes[i].nodeId, t.nextId));
      TotalAppend(u.assignments, a, MemoryCreatedOn(t.nodes[i].nodeId, t.nextId));
    }
  }

  lemma ClearKeepsReserves(t: Tables, u: Tables, now: Time)
    requires Reserves(t, u)
    ensures Reserves(t, ClearOldAssignments(u, now))
  {
    var keep := RetainedSince(now - ASSIGNMENT_RETENTION);
    forall i | 0 <= i < |t.nodes|
      ensures Total(Filter(u.assignments, keep), CpuCreatedOn(t.nodes[i].nodeId, t.nextId))
           == Total(u.assignments, CpuCreatedOn(t.nodes[i].nodeId, t.nextId))
      ensures Total(Filter(u.assignments, keep), MemoryCreatedOn(t.nodes[i].nodeId, t.nextId))
           == Total(u.assignments, MemoryCreatedOn(t.nodes[i].nodeId, t.nextId))
    {
      TotalOfFilter(u.assignments, keep, CpuCreatedOn(t.nodes[i].nodeId, t.nextId));
      TotalOfFilter(u.assignments, keep, MemoryCreatedOn(t.nodes[i].nodeId, t.nextId));
    }
  }

  lemma AdvanceKeepsReserves(t: Tables, c: Config)
    requires c.pass.Busy? && Reserves(t, c.t)
    ensures Reserves(t, Advance(c).t)
  {
    hide Reserves, Choose, Place, HasPendingStop;
    var u, p := c.t, c.pass;
    match p.stage
    case Marking(ids, _) =>
      if ids != [] {
        StatusKeepsReserves(t, u, MarkedUnhealthy(ids[0]));
      }
    case Failing(_) =>
    case Losing(rows, _) =>
      if rows != [] {
        LosingKeepsReserves(t, u, rows[0]);
      }
    case Listing(_) =>
    case Scaling(_, _) =>
    case Placing(d, left, _, _) =>
      if left != 0 && Choose(u, d.work).Placed? {
        ChoiceIsRegistered(u, d.work);
        PlaceKeepsReserves(t, u, d, Choose(u, d.work).decision.node.nodeId, p.now);
      }
    case Stopping(d, victims, _, _) =>
      if victims != [] {
        StopKeepsReserves(
          t, u, victims[0].nodeId, d.deploymentId, victims[0].containerId, d.serviceName, p.now);
      }
    case Reaping(rows, live) =>
      if rows == [] {
        ClearKeepsReserves(t, u, p.now);
      } else {
        StopKeepsReserves(t, u, rows[0].nodeId, "", rows[0].containerId, rows[0].serviceName, p.now);
      }
  }

  lemma LosingKeepsReserves(t: Tables, u: Tables, r: ContainerRecord)
    requires Reserves(t, u)
    ensures Reserves(t, LoseRow(u, r))
  {
  }

  /**
   Over a whole pass every node's reservations grow by exactly the resources of the
   creates the pass placed on it.
   */
  lemma PassConservesReservations(t: Tables, master: Id, now: Time, tick: nat)
    requires Valid(t)
    ensures Reserves(t, Pass(t, master, now, tick))
  {
    hide Valid, Pass, Reserves, Advance;
    var inv := (c: Config) => Reserves(t, c.t);
    NothingReservedYet(t);
    StatusKeepsReserves(t, t, MasterBeating(master, now));
    forall c: Config | inv(c) && c.pass.Busy? ensures inv(Advance(c)) {
      AdvanceKeepsReserves(t, c);
    }
    PassInduction(Begin(t, master, now, tick), inv);
    ValidRegisters(t);
    PassAloneIsPass(t, master, now, tick);
  }

  predicate Within(n: NodeInfo) { n.cpuUsed <= n.cpuTotal && n.memoryUsed <= n.memoryTotal }

  /** Row by row, what was within capacity in `t` is within it in `u`. */
  ghost function NoOvercommit(t: Tables): Tables -> bool {
    (u: Tables) =>
      && DistinctBy(u.nodes, NodeIdOf())
      && |u.nodes| == |t.nodes|
      && forall i :: 0 <= i < |t.nodes| && Within(t.nodes[i]) ==> Within(u.nodes[i])
  }

  lemma PlaceKeepsCapacity(t: Tables, u: Tables, d: Deployment, now: Time)
    requires NoOvercommit(t)(u) && Choose(u, d.work).Placed?
    ensures NoOvercommit(t)(Place(u, d, Choose(u, d.work).decision.node.nodeId, now))
  {
    hide Choose, Eligible, Score;
    var chosen := Choose(u, d.work).decision.node;
    ChoiceIsBest(u, d.work);
    ChoiceIsRegistered(u, d.work);
    assert chosen in u.nodes && Fits(d.work)(chosen);
    var v := Place(u, d, chosen.nodeId, now);
    assert v.nodes == Map(u.nodes, Reserving(chosen.nodeId, d.work.cpu, d.work.memory));
    hide Place, Registered;
    forall i | 0 <= i < |u.nodes|
      ensures v.nodes[i].nodeId == u.nodes[i].nodeId
      ensures Within(u.nodes[i]) ==> Within(v.nodes[i])
    {
      assert v.nodes[i] == Reserving(chosen.nodeId, d.work.cpu, d.work.memory)(u.nodes[i]);
      if u.nodes[i].nodeId == chosen.nodeId {
        var j :| 0 <= j < |u.nodes| && u.nodes[j] == chosen;
        assert NodeIdOf()(u.nodes[i]) == NodeIdOf()(u.nodes[j]);
        assert i == j;
      }
    }
  }

  lemma StatusKeepsCapacity(t: Tables, u: Tables, f: NodeInfo -> NodeInfo)
    requires NoOvercommit(t)(u)
    requires forall n :: f(n) == n.(status := f(n).status, lastHeartbeat := f(n).lastHeartbeat)
    ensures NoOvercommit(t)(u.(nodes := Map(u.nodes, f)))
  {
    var v := u.(nodes := Map(u.nodes, f));
    forall i | 0 <= i < |u.nodes|
      ensures v.nodes[i].nodeId == u.nodes[i].nodeId && (Within(u.nodes[i]) ==> Within(v.nodes[i]))
    {
      assert v.nodes[i] == f(u.nodes[i]);
    }
  }

  lemma AdvanceKeepsCapacity(t: Tables, c: Config)
    requires c.pass.Busy? && NoOvercommit(t)(c.t)
    ensures NoOvercommit(t)(Advance(c).t)
  {
    hide NoOvercommit, Choose, Place, HasPendingStop;
    var u, p := c.t, c.pass;
    if p.stage.Placing? && p.stage.left != 0 && Choose(u, p.stage.d.work).Placed? {
      PlaceKeepsCapacity(t, u, p.stage.d, p.now);
    } else if p.stage.Marking? && p.stage.ids != [] {
      StatusKeepsCapacity(t, u, MarkedUnhealthy(p.stage.ids[0]));
    } else {
      assert Advance(c).t.nodes == u.nodes;
      SameNodesSameCapacity(t, u, Advance(c).t);
    }
  }

  lemma SameNodesSameCapacity(t: Tables, u: Tables, v: Tables)
    requires NoOvercommit(t)(u) && v.nodes == u.nodes
    ensures NoOvercommit(t)(v)
  {
  }

  /** No pass reserves more than a node has, whatever the deployments ask for. */
  lemma PassNeverOvercommits(t: Tables, master: Id, now: Time, tick: nat)
    requires Valid(t)
    ensures NoOvercommit(t)(Pass(t, master, now, tick))
  {
    hide Pass, NoOvercommit, Advance;
    var inv := (c: Config) => NoOvercommit(t)(c.t);
    assert NoOvercommit(t)(t) by { NodesWithinThemselves(t); }
    StatusKeepsCapacity(t, t, MasterBeating(master, now));
    forall c: Config | inv(c) && c.pass.Busy? ensures inv(Advance(c)) {
      AdvanceKeepsCapacity(t, c);
    }
    PassInduction(Begin(t, master, now, tick), inv);
    PassAloneIsPass(t, master, now, tick);
  }

  lemma NodesWithinThemselves(t: Tables)
    requires Valid(t)
    ensures NoOvercommit(t)(t)
  {
  }
}
