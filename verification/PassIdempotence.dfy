/**
 Passes repeated while the agents are silent: replicas are never overbooked, a
 settled cluster gets no further create, an orphan gets one stop.
 */
module PassIdempotence {
  import opened Seqs
  import opened Tables
  import opened StateStore
  import opened Scheduling
  import opened Reconciliation
  import opened PassMachine
  import opened PassProperties

  function RunningCount(t: Tables, d: Id): nat { Count(t.containers, RunningOf(d)) }

  /** Replicas that run or are on their way. */
  function Held(t: Tables, d: Id): nat { RunningCount(t, d) + PendingCreates(t, d) }

  /** Any number of passes, each with its clock reading and pass number. */
  function Passes(t: Tables, master: Id, clock: seq<(Time, nat)>): Tables
    decreases |clock|
  {
    if clock == [] then t else Passes(Pass(t, master, clock[0].0, clock[0].1), master, clock[1..])
  }

  // ---- Counts under single statements --------------------------------------

  lemma LosingRunsNoMore(t: Tables, c: ContainerRecord, d: Id)
    ensures RunningCount(LoseRow(t, c), d) <= RunningCount(t, d)
  {
    var still := (x: ContainerRecord) => RunningOf(d)(x) && x.containerId != c.containerId;
    CountOfMap(t.containers, MarkedLost(c.containerId), RunningOf(d), still);
    CountMono(t.containers, still, RunningOf(d));
  }

  lemma PlacePendsOne(t: Tables, d: Deployment, n: Id, now: Time, id: Id)
    requires Registered(t, n)
    ensures PendingCreates(Place(t, d, n, now), id)
         == PendingCreates(t, id) + if d.deploymentId == id then 1 else 0
    ensures Place(t, d, n, now).containers == t.containers
  {
    CountAppend(t.assignments,
      Assignment(t.nextId, n, Create, d.deploymentId, "", d.serviceName, d.work, now, false),
      PendingCreateOf(id));
  }

  lemma StopPendsNoCreate(t: Tables, n: Id, d: Id, c: Id, service: string, now: Time, id: Id)
    ensures PendingCreates(CreateAssignment(t, n, Stop, d, c, service, NO_WORKLOAD, now), id)
         == PendingCreates(t, id)
  {
    CountAppend(t.assignments,
      Assignment(t.nextId, n, Stop, d, c, service, NO_WORKLOAD, now, false), PendingCreateOf(id));
  }

  lemma ClearingKeepsPending(t: Tables, now: Time, id: Id)
    ensures PendingCreates(ClearOldAssignments(t, now), id) == PendingCreates(t, id)
  {
    CountOfFilter(t.assignments, RetainedSince(now - ASSIGNMENT_RETENTION),
                  PendingCreateOf(id), PendingCreateOf(id));
  }

  // ---- Never more than asked for -------------------------------------------

  predicate AskedAtMost(ds: seq<Deployment>, id: Id, most: int) {
    forall d :: d in ds && d.deploymentId == id ==> d.replicas <= most
  }

  /** The bound on `Held`, and what each stage of a pass still owes. */
  ghost predicate Bounded(c: Config, id: Id, most: int) {
    && Held(c.t, id) <= most
    && AskedAtMost(c.t.deployments, id, most)
    && (c.pass.Busy? ==> match c.pass.stage
          case Listing(snapshot) => Count(snapshot, RunningOf(id)) == RunningCount(c.t, id)
          case Scaling(snapshot, todo) =>
            Count(snapshot, RunningOf(id)) == RunningCount(c.t, id) && AskedAtMost(todo, id, most)
          case Placing(d, left, snapshot, todo) =>
            && Count(snapshot, RunningOf(id)) == RunningCount(c.t, id) && AskedAtMost(todo, id, most)
            && (d.deploymentId == id ==> Held(c.t, id) + left <= most)
          case Stopping(_, _, snapshot, todo) =>
            Count(snapshot, RunningOf(id)) == RunningCount(c.t, id) && AskedAtMost(todo, id, most)
          case _ => true)
  }

  lemma PlacingKeepsBound(c: Config, id: Id, most: int)
    requires c.pass.Busy? && Bounded(c, id, most) && c.pass.stage.Placing?
    ensures Bounded(Advance(c), id, most)
  {
    hide Choose, Place, PendingCreates;
    var t, d := c.t, c.pass.stage.d;
    if c.pass.stage.left != 0 && Choose(t, d.work).Placed? {
      ChoiceIsRegistered(t, d.work);
      var n := Choose(t, d.work).decision.node.nodeId;
      PlacePendsOne(t, d, n, c.pass.now, id);
      PlaceKeepsDeployments(t, d, n, c.pass.now);
    }
  }

  lemma AdvanceKeepsBound(c: Config, id: Id, most: int)
    requires c.pass.Busy? && Bounded(c, id, most)
    ensures Bounded(Advance(c), id, most)
  {
    hide Choose, Place, HasPendingStop, Victims, Registered;
    var t, p := c.t, c.pass;
    match p.stage
    case Marking(_, _) =>
    case Failing(_) =>
    case Losing(rows, _) =>
      if rows != [] {
        LosingRunsNoMore(t, rows[0], id);
      }
    case Listing(_) =>
    case Scaling(snapshot, todo) =>
      if todo != [] {
        assert todo[0] in todo && forall d :: d in todo[1..] ==> d in todo;
      }
    case Placing(_, _, _, _) =>
      PlacingKeepsBound(c, id, most);
    case _ =>
      LateKeepsBound(c, id, most);
  }

  lemma LateKeepsBound(c: Config, id: Id, most: int)
    requires c.pass.Busy? && Bounded(c, id, most) && (c.pass.stage.Stopping? || c.pass.stage.Reaping?)
    ensures Bounded(Advance(c), id, most)
  {
    hide HasPendingStop, PendingCreates, Registered, Choose;
    var t, p := c.t, c.pass;
    match p.stage
    case Stopping(d, victims, _, _) =>
      if victims != [] {
        var v := victims[0];
        StopPendsNoCreate(t, v.nodeId, d.deploymentId, v.containerId, d.serviceName, p.now, id);
      }
    case Reaping(rows, live) =>
      if rows == [] {
        ClearingKeepsPending(t, p.now, id);
      } else {
        StopPendsNoCreate(t, rows[0].nodeId, "", rows[0].containerId, rows[0].serviceName, p.now, id);
      }
  }

  lemma PlaceKeepsDeployments(t: Tables, d: Deployment, n: Id, now: Time)
    ensures Place(t, d, n, now).deployments == t.deployments
  {
  }

  lemma PassKeepsBound(t: Tables, master: Id, now: Time, tick: nat, id: Id, most: int)
    requires Valid(t) && Held(t, id) <= most && AskedAtMost(t.deployments, id, most)
    ensures Held(Pass(t, master, now, tick), id) <= most
  {
    hide Valid, Pass, Advance;
    var inv := (c: Config) => Bounded(c, id, most);
    forall c: Config | inv(c) && c.pass.Busy? ensures inv(Advance(c)) {
      AdvanceKeepsBound(c, id, most);
    }
    PassInduction(Begin(t, master, now, tick), inv);
    ValidRegisters(t);
    PassAloneIsPass(t, master, now, tick);
  }

  /**
   However often the master reconciles before an agent speaks, running plus pending
   replicas stay at or below the larger of what is asked for and what was there.
   */
  lemma {:induction false} PassesNeverOverbook(t: Tables, master: Id, clock: seq<(Time, nat)>, id: Id, most: int)
    requires Valid(t) && Held(t, id) <= most && AskedAtMost(t.deployments, id, most)
    ensures Held(Passes(t, master, clock), id) <= most
    decreases |clock|
  {
    hide Valid, Pass, Held;
    if clock != [] {
      PassKeepsBound(t, master, clock[0].0, clock[0].1, id, most);
      PassKeepsValid(t, master, clock[0].0, clock[0].1);
      PassesNeverOverbook(Pass(t, master, clock[0].0, clock[0].1), master, clock[1..], id, most);
    }
  }

  // ---- Scaling up is exact -------------------------------------------------

  /** Scaling up adds the whole deficit, or it stops where no healthy node has room. */
  lemma {:induction false} ScaleUpFillsOrIsRefused(t: Tables, d: Deployment, count: nat, now: Time)
    ensures var u := ScaleUp(t, d, count, now);
      && PendingCreates(u, d.deploymentId) <= PendingCreates(t, d.deploymentId) + count
      && (PendingCreates(u, d.deploymentId) == PendingCreates(t, d.deploymentId) + count
          || forall n :: n in u.nodes && n.status.Healthy? ==> !Fits(d.work)(n))
    decreases count
  {
    hide Choose, Place, Fits;
    if count != 0 && Choose(t, d.work).Placed? {
      ChoiceIsRegistered(t, d.work);
      var n := Choose(t, d.work).decision.node.nodeId;
      PlacePendsOne(t, d, n, now, d.deploymentId);
      ScaleUpFillsOrIsRefused(Place(t, d, n, now), d, count - 1, now);
    } else {
      RefusedIffNoRoom(t, d.work);
    }
  }

  // ---- A settled cluster ---------------------------------------------------

  predicate Settled(t: Tables) {
    forall d :: d in t.deployments ==> Held(t, d.deploymentId) >= d.replicas
  }

  predicate NoneStale(t: Tables, master: Id, now: Time) {
    StaleNodes(KeepMasterAlive(t, master, now), now) == []
  }

  ghost function OnlyStopsSince(t: Tables): Tables -> bool {
    (u: Tables) =>
      && u.nextId >= t.nextId
      && u.containers == t.containers
      && u.deployments == t.deployments
      && (forall a :: a in u.assignments && a.assignmentId >= t.nextId ==> a.action.Stop?)
      && (forall d :: PendingCreates(u, d) == PendingCreates(t, d))
  }

  ghost predicate Calm(t: Tables, c: Config) {
    && OnlyStopsSince(t)(c.t)
    && (c.pass.Busy? ==> match c.pass.stage
          case Marking(ids, unhealthy) => ids == [] && unhealthy == []
          case Failing(nodes) => nodes == []
          case Losing(_, _) => false
          case Listing(snapshot) => snapshot == t.containers
          case Scaling(snapshot, todo) =>
            snapshot == t.containers && forall d :: d in todo ==> d in t.deployments
          case Placing(_, _, _, _) => false
          case Stopping(_, _, snapshot, todo) =>
            snapshot == t.containers && forall d :: d in todo ==> d in t.deployments
          case Reaping(_, _) => true)
  }

  lemma StopKeepsCalm(t: Tables, u: Tables, n: Id, d: Id, c: Id, service: string, now: Time)
    requires OnlyStopsSince(t)(u)
    ensures OnlyStopsSince(t)(CreateAssignment(u, n, Stop, d, c, service, NO_WORKLOAD, now))
  {
    forall id ensures PendingCreates(CreateAssignment(u, n, Stop, d, c, service, NO_WORKLOAD, now), id)
                   == PendingCreates(t, id)
    {
      StopPendsNoCreate(u, n, d, c, service, now, id);
    }
  }

  lemma ClearKeepsCalm(t: Tables, u: Tables, now: Time)
    requires OnlyStopsSince(t)(u)
    ensures OnlyStopsSince(t)(ClearOldAssignments(u, now))
  {
    forall id ensures PendingCreates(ClearOldAssignments(u, now), id) == PendingCreates(t, id) {
      ClearingKeepsPending(u, now, id);
    }
  }

  lemma AdvanceKeepsCalm(t: Tables, c: Config)
    requires c.pass.Busy? && Calm(t, c) && Settled(t)
    ensures Calm(t, Advance(c))
  {
    hide OnlyStopsSince, Choose, HasPendingStop, Victims, Registered;
    var u, p := c.t, c.pass;
    assert u.containers == t.containers && u.deployments == t.deployments by { CalmTables(t, u); }
    match p.stage
    case Marking(_, _) =>
    case Failing(_) =>
    case Listing(_) =>
    case Scaling(snapshot, todo) =>
      if todo != [] {
        assert todo[0] in t.deployments && forall d :: d in todo[1..] ==> d in todo;
        CalmTables(t, u);
        assert Deficit(u, todo[0], snapshot) <= 0;
      }
    case Stopping(d, victims, _, _) =>
      if victims != [] {
        var v := victims[0];
        StopKeepsCalm(t, u, v.nodeId, d.deploymentId, v.containerId, d.serviceName, p.now);
      }
    case Reaping(rows, _) =>
      if rows == [] {
        ClearKeepsCalm(t, u, p.now);
      } else {
        StopKeepsCalm(t, u, rows[0].nodeId, "", rows[0].containerId, rows[0].serviceName, p.now);
      }
  }

  lemma CalmTables(t: Tables, u: Tables)
    requires OnlyStopsSince(t)(u)
    ensures u.containers == t.containers && u.deployments == t.deployments
    ensures forall d :: PendingCreates(u, d) == PendingCreates(t, d)
  {
  }

  /** A pass over a settled cluster in which no node times out adds nothing but stops. */
  lemma SettledPassOnlyStops(t: Tables, master: Id, now: Time, tick: nat)
    requires Valid(t) && Settled(t) && NoneStale(t, master, now)
    ensures OnlyStopsSince(t)(Pass(t, master, now, tick))
    ensures Settled(Pass(t, master, now, tick))
  {
    hide Pass, Advance;
    var inv := (c: Config) => Calm(t, c);
    var alive := KeepMasterAlive(t, master, now);
    assert OnlyStopsSince(t)(alive);
    forall c: Config | inv(c) && c.pass.Busy? ensures inv(Advance(c)) {
      AdvanceKeepsCalm(t, c);
    }
    PassInduction(Begin(t, master, now, tick), inv);
    PassAloneIsPass(t, master, now, tick);
  }

  /** No node times out in any of these passes. */
  ghost predicate AlwaysAlive(t: Tables, master: Id, clock: seq<(Time, nat)>)
    decreases |clock|
  {
    clock == [] || (NoneStale(t, master, clock[0].0)
                    && AlwaysAlive(Pass(t, master, clock[0].0, clock[0].1), master, clock[1..]))
  }

  /** Once the whole deficit is placed, no later pass adds a create. */
  lemma {:induction false} SettledStaysSettled(t: Tables, master: Id, clock: seq<(Time, nat)>)
    requires Valid(t) && Settled(t) && AlwaysAlive(t, master, clock)
    ensures Settled(Passes(t, master, clock))
    ensures forall d :: PendingCreates(Passes(t, master, clock), d) == PendingCreates(t, d)
    decreases |clock|
  {
    hide Valid, Pass, Settled, NoneStale, PendingCreates;
    if clock != [] {
      var u := Pass(t, master, clock[0].0, clock[0].1);
      SettledPassOnlyStops(t, master, clock[0].0, clock[0].1);
      PassKeepsValid(t, master, clock[0].0, clock[0].1);
      SettledStaysSettled(u, master, clock[1..]);
    }
  }

  // ---- Orphans -------------------------------------------------------------

  function PendingStops(t: Tables, id: Id): nat { Count(t.assignments, PendingStopOf(id)) }

  lemma AssignCountsStop(t: Tables, n: Id, action: Action, d: Id, c: Id, service: string,
                         work: Workload, now: Time, id: Id)
    requires Registered(t, n)
    ensures PendingStops(CreateAssignment(t, n, action, d, c, service, work, now), id)
         == PendingStops(t, id) + if action.Stop? && c == id then 1 else 0
  {
    CountAppend(t.assignments, Assignment(t.nextId, n, action, d, c, service, work, now, false), PendingStopOf(id));
  }

  lemma PlaceStopsNothing(t: Tables, d: Deployment, n: Id, now: Time, id: Id)
    requires Registered(t, n)
    ensures PendingStops(Place(t, d, n, now), id) == PendingStops(t, id)
  {
    AssignCountsStop(t, n, Create, d.deploymentId, "", d.serviceName, d.work, now, id);
    assert Place(t, d, n, now).assignments
        == CreateAssignment(t, n, Create, d.deploymentId, "", d.serviceName, d.work, now).assignments;
  }

  lemma {:induction false} ScaleUpStopsNothing(t: Tables, d: Deployment, count: nat, now: Time, id: Id)
    ensures PendingStops(ScaleUp(t, d, count, now), id) == PendingStops(t, id)
    decreases count
  {
    hide Choose, Place, PendingStops, Registered;
    if count != 0 && Choose(t, d.work).Placed? {
      ChoiceIsRegistered(t, d.work);
      var n := Choose(t, d.work).decision.node.nodeId;
      PlaceStopsNothing(t, d, n, now, id);
      ScaleUpStopsNothing(Place(t, d, n, now), d, count - 1, now, id);
    }
  }

  lemma {:induction false} StopAllSparesOthers(
    t: Tables, d: Deployment, victims: seq<ContainerRecord>, now: Time, id: Id)
    requires forall v :: v in victims ==> v.containerId != id
    ensures PendingStops(StopAll(t, d, victims, now), id) == PendingStops(t, id)
    decreases |victims|
  {
    if victims != [] {
      var v := victims[0];
      assert v in victims;
      if Registered(t, v.nodeId) {
        AssignCountsStop(t, v.nodeId, Stop, d.deploymentId, v.containerId, d.serviceName, NO_WORKLOAD, now, id);
      }
      StopAllSparesOthers(StopOne(t, d, v, now), d, victims[1..], now, id);
    }
  }

  lemma ReconcileOneSpares(
    t: Tables, d: Deployment, snapshot: seq<ContainerRecord>, now: Time, c: ContainerRecord)
    requires DistinctBy(snapshot, ContainerIdOf()) && c in snapshot && d.deploymentId != c.deploymentId
    ensures PendingStops(ReconcileOne(t, d, snapshot, now), c.containerId) == PendingStops(t, c.containerId)
  {
    hide Choose, ScaleUp, StopAll, Victims;
    var deficit := Deficit(t, d, snapshot);
    if deficit > 0 {
      ScaleUpStopsNothing(t, d, deficit, now, c.containerId);
    } else if deficit < 0 {
      var running := Filter(snapshot, RunningOf(d.deploymentId));
      VictimsAreRunning(running, -deficit);
      forall v | v in Victims(running, -deficit) ensures v.containerId != c.containerId {
        assert v in snapshot && RunningOf(d.deploymentId)(v);
        if v.containerId == c.containerId {
          SameIdSameRow(snapshot, v, c);
        }
      }
      StopAllSparesOthers(t, d, Victims(running, -deficit), now, c.containerId);
    }
  }

  lemma {:induction false} ScalingSparesOrphans(
    t: Tables, ds: seq<Deployment>, snapshot: seq<ContainerRecord>, now: Time, c: ContainerRecord)
    requires DistinctBy(snapshot, ContainerIdOf()) && c in snapshot
    requires forall d :: d in ds ==> d.deploymentId != c.deploymentId
    ensures PendingStops(ReconcileDeployments(t, ds, snapshot, now), c.containerId)
         == PendingStops(t, c.containerId)
    decreases |ds|
  {
    hide ReconcileOne;
    if ds != [] {
      assert ds[0] in ds;
      ReconcileOneSpares(t, ds[0], snapshot, now, c);
      ScalingSparesOrphans(ReconcileOne(t, ds[0], snapshot, now), ds[1..], snapshot, now, c);
    }
  }

  lemma SameIdSameRow(cs: seq<ContainerRecord>, a: ContainerRecord, b: ContainerRecord)
    requires DistinctBy(cs, ContainerIdOf()) && a in cs && b in cs && a.containerId == b.containerId
    ensures a == b
  {
    var i :| 0 <= i < |cs| && cs[i] == a;
    var j :| 0 <= j < |cs| && cs[j] == b;
    assert ContainerIdOf()(cs[i]) == ContainerIdOf()(cs[j]);
  }

  lemma {:induction false} CleanupStopsEachOnce(
    t: Tables, rows: seq<ContainerRecord>, live: set<Id>, now: Time, c: ContainerRecord)
    requires RowsRegistered(t, rows) && DistinctBy(rows, ContainerIdOf()) && Orphan(c, live)
    ensures c in rows ==>
      PendingStops(CleanupOrphans(t, rows, live, now), c.containerId)
      == if PendingStops(t, c.containerId) == 0 then 1 else PendingStops(t, c.containerId)
    ensures (forall r :: r in rows ==> r.containerId != c.containerId) ==>
      PendingStops(CleanupOrphans(t, rows, live, now), c.containerId) == PendingStops(t, c.containerId)
    decreases |rows|
  {
    if rows != [] {
      var r := rows[0];
      assert r in rows;
      var u := CleanupOne(t, r, live, now);
      AssignCountsStop(t, r.nodeId, Stop, "", r.containerId, r.serviceName, NO_WORKLOAD, now, c.containerId);
      forall x | x in rows[1..] ensures x.containerId != r.containerId {
        var i :| 0 <= i < |rows[1..]| && rows[1..][i] == x;
        assert ContainerIdOf()(rows[0]) != ContainerIdOf()(rows[i + 1]);
      }
      assert DistinctBy(rows[1..], ContainerIdOf());
      CleanupStopsEachOnce(u, rows[1..], live, now, c);
    }
  }

  /** Valid tables that differ from `t` in nodes and containers only. */
  ghost function OtherwiseAs(t: Tables): Tables -> bool {
    (u: Tables) => Valid(u) && u == t.(nodes := u.nodes, containers := u.containers)
  }

  lemma {:induction false} MarkingKeepsValid(t: Tables, u: Tables, ids: seq<Id>)
    requires OtherwiseAs(t)(u)
    ensures OtherwiseAs(t)(MarkUnhealthyAll(u, ids))
    decreases |ids|
  {
    hide Valid;
    if ids != [] {
      MapKeepsValid(u, MarkedUnhealthy(ids[0]));
      MarkingKeepsValid(t, MarkNodeUnhealthy(u, ids[0]), ids[1..]);
    }
  }

  lemma {:induction false} LosingKeepsValid(t: Tables, u: Tables, rows: seq<ContainerRecord>)
    requires OtherwiseAs(t)(u)
    ensures OtherwiseAs(t)(LoseRows(u, rows))
    decreases |rows|
  {
    hide Valid;
    if rows != [] {
      MarkLostKeepsValid(u, rows[0].containerId);
      LosingKeepsValid(t, LoseRow(u, rows[0]), rows[1..]);
    }
  }

  lemma {:induction false} FailuresKeepValid(t: Tables, u: Tables, ids: seq<Id>)
    requires OtherwiseAs(t)(u)
    ensures OtherwiseAs(t)(HandleNodeFailures(u, ids))
    decreases |ids|
  {
    hide Valid, OtherwiseAs;
    if ids != [] {
      var rows := Filter(u.containers, OnNode(ids[0]));
      LosingKeepsValid(t, u, rows);
      FailuresKeepValid(t, LoseRows(u, rows), ids[1..]);
    }
  }

  lemma AfterHealthKeepsValid(t: Tables, master: Id, now: Time)
    requires Valid(t)
    ensures OtherwiseAs(t)(AfterHealth(t, master, now))
  {
    hide Valid, StaleNodes;
    MapKeepsValid(t, MasterBeating(master, now));
    var alive := KeepMasterAlive(t, master, now);
    assert OtherwiseAs(t)(alive);
    MarkingKeepsValid(t, alive, StaleNodes(alive, now));
    FailuresKeepValid(t, CheckNodeHealth(alive, now), StaleNodes(alive, now));
  }

  /**
   A pass leaves every container that still runs as an orphan with a pending stop:
   with one if it had none, and with no more than before if it had some.
   */
  lemma OrphanGetsOneStop(t: Tables, master: Id, now: Time, tick: nat, c: ContainerRecord)
    requires Valid(t)
    requires c in AfterHealth(t, master, now).containers && Orphan(c, DeploymentIds(t))
    ensures PendingStops(Pass(t, master, now, tick), c.containerId)
         == if PendingStops(t, c.containerId) == 0 then 1 else PendingStops(t, c.containerId)
  {
    hide AfterHealth;
    var t2 := AfterHealth(t, master, now);
    AfterHealthKeepsValid(t, master, now);
    assert Valid(t2) && t2 == t.(nodes := t2.nodes, containers := t2.containers);
    var t3 := ReconcileDeployments(t2, t2.deployments, t2.containers, now);
    forall d | d in t2.deployments ensures d.deploymentId != c.deploymentId {
      assert d.deploymentId in DeploymentIds(t);
    }
    ScalingSparesOrphans(t2, t2.deployments, t2.containers, now, c);
    ScalingKeepsTables(t2, t2.deployments, t2.containers, now);
    CleanupStopsEachOnce(t3, t2.containers, DeploymentIds(t3), now, c);
    var t4 := CleanupOrphans(t3, t2.containers, DeploymentIds(t3), now);
    CountOfFilter(t4.assignments, RetainedSince(now - ASSIGNMENT_RETENTION),
                  PendingStopOf(c.containerId), PendingStopOf(c.containerId));
  }

  lemma {:induction false} ScalingKeepsTables(
    t: Tables, ds: seq<Deployment>, snapshot: seq<ContainerRecord>, now: Time)
    ensures ReconcileDeployments(t, ds, snapshot, now).deployments == t.deployments
    ensures ReconcileDeployments(t, ds, snapshot, now).containers == t.containers
    ensures forall n :: Registered(ReconcileDeployments(t, ds, snapshot, now), n) <==> Registered(t, n)
    decreases |ds|
  {
    hide Choose;
    if ds != [] {
      var d := ds[0];
      var deficit := Deficit(t, d, snapshot);
      if deficit > 0 {
        ScaleUpKeepsTables(t, d, deficit, now);
        ScaleUpKeepsRegistered(t, d, deficit, now);
      } else if deficit < 0 {
        var victims := Victims(Filter(snapshot, RunningOf(d.deploymentId)), -deficit);
        StopAllKeepsTables(t, d, victims, now);
        StopAllKeepsRegistered(t, d, victims, now);
      }
      hide ScaleUp, StopAll, Victims;
      ScalingKeepsTables(ReconcileOne(t, d, snapshot, now), ds[1..], snapshot, now);
    }
  }

  lemma {:induction false} ScaleUpKeepsTables(t: Tables, d: Deployment, count: nat, now: Time)
    ensures ScaleUp(t, d, count, now).deployments == t.deployments
    ensures ScaleUp(t, d, count, now).containers == t.containers
    decreases count
  {
    hide Choose;
    if count != 0 && Choose(t, d.work).Placed? {
      ScaleUpKeepsTables(Place(t, d, Choose(t, d.work).decision.node.nodeId, now), d, count - 1, now);
    }
  }

  lemma {:induction false} StopAllKeepsTables(
    t: Tables, d: Deployment, victims: seq<ContainerRecord>, now: Time)
    ensures StopAll(t, d, victims, now).deployments == t.deployments
    ensures StopAll(t, d, victims, now).containers == t.containers
    decreases |victims|
  {
    if victims != [] {
      StopAllKeepsTables(StopOne(t, d, victims[0], now), d, victims[1..], now);
    }
  }
}
