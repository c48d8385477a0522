/**
 Convergence: with the deployments fixed, every node healthy, room for every
 placement and every assignment succeeding, two rounds of reconcile, work and report
 bring every deployment to its number of replicas and remove every orphan, and after
 that no pass adds anything.
 */
module Convergence {
  import opened Seqs
  import opened Tables
  import opened StateStore
  import opened Scheduling
  import opened Reconciliation
  import opened PassMachine
  import opened PassProperties
  import opened PassIdempotence
  import opened PassAssignments
  import opened ClusterProtocol
  import opened AgentRound

  /** The master, the nodes with an agent in the order they take turns, the engines' names and loads. */
  datatype Setup = Setup(master: Id, agents: seq<Id>, name: nat -> Id, usage: Id -> (int, int))

  datatype Moment = Moment(now: Time, tick: nat)

  function Reconciled(c: Cluster, k: Setup, m: Moment): Cluster {
    c.(t := Pass(c.t, k.master, m.now, m.tick))
  }

  function Worked(c: Cluster, k: Setup, m: Moment): Cluster {
    WorkAll(Reconciled(c, k, m), k.agents, k.name, m.now)
  }

  function Round(c: Cluster, k: Setup, m: Moment): Cluster {
    ReportAll(Worked(c, k, m), k.agents, k.usage, m.now)
  }

  /** Any state of the tables and engines; agents run on all nodes that matter. */
  ghost predicate Base(c: Cluster, k: Setup) {
    && Valid(c.t) && Injective(k.name) && Tidy(c, k.name)
    && (forall n :: n in k.agents ==> Registered(c.t, n))
    && (forall e :: e in c.t.containers ==> e.nodeId in k.agents)
    && (forall e :: e in c.engines ==> e.nodeId in k.agents)
    && (forall d :: d in c.t.deployments ==> d.replicas >= 0)
  }

  /** No node times out, and the pass places the whole deficit on nodes with an agent. */
  ghost predicate Smooth(c: Cluster, k: Setup, m: Moment) {
    && NoneStale(c.t, k.master, m.now)
    && Settled(Reconciled(c, k, m).t)
    && (forall a :: a in Reconciled(c, k, m).t.assignments && IsPending(a) ==> a.nodeId in k.agents)
  }

  ghost predicate NothingPending(t: Tables) { forall a :: a in t.assignments ==> !IsPending(a) }

  /** Between rounds: the table shows the engines, and everything assigned has been done. */
  ghost predicate Rested(c: Cluster, k: Setup) { Base(c, k) && Synced(c) && NothingPending(c.t) }

  ghost predicate Converged(c: Cluster, k: Setup) {
    && Rested(c, k)
    && (forall d :: d in c.t.deployments ==>
          && RunningCount(c.t, d.deploymentId) == d.replicas
          && Count(c.engines, RunningOf(d.deploymentId)) == d.replicas)
    && (forall e :: e in c.engines ==> !Orphan(e, DeploymentIds(c.t)))
  }

  // ---- What a pass takes from the table ------------------------------------

  /** What the pass has assigned so far comes from the rows of `t`, which it has not touched. */
  ghost function Drawn(t: Tables): Tables -> bool {
    (u: Tables) =>
      && u.containers == t.containers && u.deployments == t.deployments && u.nextId >= t.nextId
      && (forall n :: Registered(u, n) <==> Registered(t, n))
      && (forall a :: a in u.assignments ==> a in t.assignments || (a.assignmentId >= t.nextId && FromRow(t, a)))
  }

  ghost predicate FromRow(t: Tables, a: Assignment) {
    if a.action.Create? then a.deploymentId in DeploymentIds(t)
    else exists r :: r in t.containers && r.containerId == a.containerId && r.nodeId == a.nodeId
  }

  lemma PassIsDrawn(t: Tables, master: Id, now: Time, tick: nat)
    requires Valid(t) && NoneStale(t, master, now)
    ensures Drawn(t)(Pass(t, master, now, tick))
  {
    PassIssues(t, master, now, tick);
    hide Pass, Registered;
    var u := Pass(t, master, now, tick);
    forall a | a in u.assignments && a !in t.assignments ensures FromRow(t, a) {
      assert AsAsked(t, now, a);
    }
  }

  // ---- Which containers a pass stops ---------------------------------------

  lemma {:induction false} ScaleUpPendsOthersNot(t: Tables, d: Deployment, count: nat, now: Time, id: Id)
    requires id != d.deploymentId
    ensures PendingCreates(ScaleUp(t, d, count, now), id) == PendingCreates(t, id)
    decreases count
  {
    hide Choose, Place, PendingCreates;
    if count != 0 && Choose(t, d.work).Placed? {
      ChoiceIsRegistered(t, d.work);
      var n := Choose(t, d.work).decision.node.nodeId;
      PlacePendsOne(t, d, n, now, id);
      ScaleUpPendsOthersNot(Place(t, d, n, now), d, count - 1, now, id);
    }
  }

  lemma {:induction false} StopAllPendsNoCreate(
    t: Tables, d: Deployment, victims: seq<ContainerRecord>, now: Time, id: Id)
    ensures PendingCreates(StopAll(t, d, victims, now), id) == PendingCreates(t, id)
    decreases |victims|
  {
    if victims != [] {
      var v := victims[0];
      StopPendsNoCreate(t, v.nodeId, d.deploymentId, v.containerId, d.serviceName, now, id);
      hide PendingCreates, StopOne;
      assert StopOne(t, d, v, now)
          == CreateAssignment(t, v.nodeId, Stop, d.deploymentId, v.containerId, d.serviceName, NO_WORKLOAD, now)
        by { StopOneIs(t, d, v, now); }
      StopAllPendsNoCreate(StopOne(t, d, v, now), d, victims[1..], now, id);
    }
  }

  lemma StopOneIs(t: Tables, d: Deployment, v: ContainerRecord, now: Time)
    ensures StopOne(t, d, v, now)
         == CreateAssignment(t, v.nodeId, Stop, d.deploymentId, v.containerId, d.serviceName, NO_WORKLOAD, now)
  {
  }

  lemma ReconcileOnePendsOthersNot(t: Tables, d: Deployment, snapshot: seq<ContainerRecord>, now: Time, id: Id)
    requires id != d.deploymentId
    ensures PendingCreates(ReconcileOne(t, d, snapshot, now), id) == PendingCreates(t, id)
  {
    hide ScaleUp, StopAll, Victims, PendingCreates, Choose;
    var deficit := Deficit(t, d, snapshot);
    if deficit > 0 {
      ScaleUpPendsOthersNot(t, d, deficit, now, id);
    } else if deficit < 0 {
      StopAllPendsNoCreate(t, d, Victims(Filter(snapshot, RunningOf(d.deploymentId)), -deficit), now, id);
    }
  }

  /** The stops of one deployment hit its victims. */
  lemma {:induction false} StopAllHits(
    t: Tables, d: Deployment, victims: seq<ContainerRecord>, now: Time, id: Id)
    requires RowsRegistered(t, victims)
    ensures PendingStops(StopAll(t, d, victims, now), id) == 0
       <==> PendingStops(t, id) == 0 && forall v :: v in victims ==> v.containerId != id
    decreases |victims|
  {
    if victims != [] {
      var v := victims[0];
      assert v in victims;
      AssignCountsStop(t, v.nodeId, Stop, d.deploymentId, v.containerId, d.serviceName, NO_WORKLOAD, now, id);
      var u := StopOne(t, d, v, now);
      assert u.nodes == t.nodes;
      assert forall x :: x in victims <==> x == v || x in victims[1..];
      StopAllHits(u, d, victims[1..], now, id);
    }
  }

  function Excess(cs: seq<ContainerRecord>, d: Deployment): nat {
    var r := Count(cs, RunningOf(d.deploymentId));
    if 0 <= d.replicas < r then r - d.replicas else 0
  }

  /** The running containers of `d` beyond its replicas, newest first. */
  function ExcessRows(cs: seq<ContainerRecord>, d: Deployment): seq<ContainerRecord> {
    Victims(Filter(cs, RunningOf(d.deploymentId)), Excess(cs, d))
  }

  lemma ReconcileOneHits(t: Tables, d: Deployment, snapshot: seq<ContainerRecord>, now: Time, c: ContainerRecord)
    requires DistinctBy(snapshot, ContainerIdOf()) && RowsRegistered(t, snapshot) && c in snapshot
    requires PendingCreates(t, d.deploymentId) == 0 && PendingStops(t, c.containerId) == 0 && d.replicas >= 0
    ensures PendingStops(ReconcileOne(t, d, snapshot, now), c.containerId) == 0 <==> c !in ExcessRows(snapshot, d)
  {
    hide ScaleUp, StopAll, Choose, PendingStops, PendingCreates;
    var deficit := Deficit(t, d, snapshot);
    var running := Filter(snapshot, RunningOf(d.deploymentId));
    SortDescSorts(running, StartedAtOf());
    if deficit > 0 {
      ScaleUpStopsNothing(t, d, deficit, now, c.containerId);
    } else if deficit < 0 {
      var victims := Victims(running, -deficit);
      assert victims == ExcessRows(snapshot, d);
      VictimsAreRunning(running, -deficit);
      StopAllHits(t, d, victims, now, c.containerId);
      forall v | v in victims && v.containerId == c.containerId ensures v == c {
        SameIdSameRow(snapshot, v, c);
      }
    }
  }

  lemma {:induction false} ScalingHits(
    t: Tables, ds: seq<Deployment>, snapshot: seq<ContainerRecord>, now: Time, d: Deployment, c: ContainerRecord)
    requires DistinctBy(snapshot, ContainerIdOf()) && RowsRegistered(t, snapshot) && c in snapshot
    requires DistinctBy(ds, DeploymentIdOf()) && d in ds && c.deploymentId == d.deploymentId
    requires PendingCreates(t, d.deploymentId) == 0 && PendingStops(t, c.containerId) == 0 && d.replicas >= 0
    ensures PendingStops(ReconcileDeployments(t, ds, snapshot, now), c.containerId) == 0
       <==> c !in ExcessRows(snapshot, d)
    decreases |ds|
  {
    hide ReconcileOne, PendingStops, PendingCreates, ExcessRows;
    var u := ReconcileOne(t, ds[0], snapshot, now);
    assert forall i :: 1 <= i < |ds| ==> DeploymentIdOf()(ds[0]) != DeploymentIdOf()(ds[i]);
    if ds[0] == d {
      ReconcileOneHits(t, d, snapshot, now, c);
      forall x | x in ds[1..] ensures x.deploymentId != c.deploymentId {
        var i :| 0 <= i < |ds[1..]| && ds[1..][i] == x;
        assert ds[i + 1] == x;
      }
      ScalingSparesOrphans(u, ds[1..], snapshot, now, c);
    } else {
      assert d in ds[1..];
      var i :| 0 <= i < |ds[1..]| && ds[1..][i] == d;
      assert ds[i + 1] == d && ds[0].deploymentId != d.deploymentId;
      ReconcileOneSpares(t, ds[0], snapshot, now, c);
      ReconcileOnePendsOthersNot(t, ds[0], snapshot, now, d.deploymentId);
      OneKeepsRegistered(t, ds[0], snapshot, now);
      ScalingHits(u, ds[1..], snapshot, now, d, c);
    }
  }

  lemma OneKeepsRegistered(t: Tables, d: Deployment, snapshot: seq<ContainerRecord>, now: Time)
    ensures forall n :: Registered(ReconcileOne(t, d, snapshot, now), n) <==> Registered(t, n)
  {
    ScalingKeepsTables(t, [d], snapshot, now);
    assert [d][1..] == [];
    assert ReconcileDeployments(t, [d], snapshot, now)
        == ReconcileDeployments(ReconcileOne(t, d, snapshot, now), [], snapshot, now);
  }

  lemma {:induction false} CleanupSparesLive(
    t: Tables, rows: seq<ContainerRecord>, live: set<Id>, now: Time, id: Id)
    requires forall r :: r in rows && r.containerId == id ==> !Orphan(r, live)
    ensures PendingStops(CleanupOrphans(t, rows, live, now), id) == PendingStops(t, id)
    decreases |rows|
  {
    if rows != [] {
      var r := rows[0];
      assert r in rows;
      if Registered(t, r.nodeId) {
        AssignCountsStop(t, r.nodeId, Stop, "", r.containerId, r.serviceName, NO_WORKLOAD, now, id);
      }
      CleanupSparesLive(CleanupOne(t, r, live, now), rows[1..], live, now, id);
    }
  }

  // ---- What a pass makes of a rested cluster -------------------------------

  function Is(d: Id): Id -> bool { (x: Id) => x == d }

  function Orphaned(live: set<Id>): Id -> bool { (x: Id) => x != "" && x !in live }

  /** With no node stale the first two phases touch no container. */
  lemma QuietHealth(t: Tables, master: Id, now: Time)
    requires NoneStale(t, master, now)
    ensures AfterHealth(t, master, now) == KeepMasterAlive(t, master, now)
  {
    hide StaleNodes;
  }

  lemma {:induction false} ScalingStops(t: Tables, d: Deployment, now: Time, c: ContainerRecord)
    requires Valid(t) && NothingPending(t)
    requires d in t.deployments && d.replicas >= 0 && c in t.containers && c.deploymentId == d.deploymentId
    ensures var u := ReconcileDeployments(t, t.deployments, t.containers, now);
      && (PendingStops(u, c.containerId) == 0 <==> c !in ExcessRows(t.containers, d))
      && u.deployments == t.deployments
      && (forall n :: Registered(u, n) <==> Registered(t, n))
  {
    CountNone(t.assignments, PendingCreateOf(d.deploymentId));
    CountNone(t.assignments, PendingStopOf(c.containerId));
    hide ReconcileDeployments, ExcessRows;
    ScalingHits(t, t.deployments, t.containers, now, d, c);
    ScalingKeepsTables(t, t.deployments, t.containers, now);
  }

  /** What a pass is when no node is stale. */
  lemma QuietPass(t: Tables, k: Setup, m: Moment)
    requires NoneStale(t, k.master, m.now)
    ensures var t3 := ReconcileDeployments(KeepMasterAlive(t, k.master, m.now), t.deployments, t.containers, m.now);
      Pass(t, k.master, m.now, m.tick)
      == Maintain(CleanupOrphans(t3, t.containers, DeploymentIds(t3), m.now), m.tick, m.now)
  {
    QuietHealth(t, k.master, m.now);
    hide AfterHealth, ReconcileDeployments, CleanupOrphans, StaleNodes;
  }

  lemma MaintainKeepsStops(t: Tables, tick: nat, now: Time, id: Id)
    ensures PendingStops(Maintain(t, tick, now), id) == PendingStops(t, id)
  {
    CountOfFilter(t.assignments, RetainedSince(now - ASSIGNMENT_RETENTION), PendingStopOf(id), PendingStopOf(id));
  }

  lemma PassStops(t: Tables, k: Setup, m: Moment, d: Deployment, c: ContainerRecord)
    requires Valid(t) && NothingPending(t) && NoneStale(t, k.master, m.now)
    requires d in t.deployments && d.replicas >= 0 && c in t.containers && c.deploymentId == d.deploymentId
    ensures PendingStops(Pass(t, k.master, m.now, m.tick), c.containerId) == 0 <==> c !in ExcessRows(t.containers, d)
  {
    var alive := KeepMasterAlive(t, k.master, m.now);
    MapKeepsValid(t, MasterBeating(k.master, m.now));
    ScalingStops(alive, d, m.now, c);
    QuietPass(t, k, m);
    var t3 := ReconcileDeployments(alive, t.deployments, t.containers, m.now);
    hide Pass, ReconcileDeployments, ExcessRows, Registered, NoneStale, PendingStops;
    forall r | r in t.containers && r.containerId == c.containerId ensures !Orphan(r, DeploymentIds(t3)) {
      SameIdSameRow(t.containers, r, c);
    }
    hide Valid, DistinctBy;
    CleanupSparesLive(t3, t.containers, DeploymentIds(t3), m.now, c.containerId);
    MaintainKeepsStops(CleanupOrphans(t3, t.containers, DeploymentIds(t3), m.now), m.tick, m.now, c.containerId);
  }

  lemma {:induction false} OccursOnce<T, K>(s: seq<T>, key: T -> K, x: T)
    requires DistinctBy(s, key)
    ensures multiset(s)[x] <= 1
  {
    if s != [] {
      var n := |s| - 1;
      assert s == s[..n] + [s[n]];
      OccursOnce(s[..n], key, x);
      if x == s[n] {
        assert forall i :: 0 <= i < n ==> key(s[i]) != key(s[n]);
        assert x !in s[..n];
      }
    }
  }

  function Outside(victims: seq<ContainerRecord>): ContainerRecord -> bool { (c: ContainerRecord) => c !in victims }

  lemma RestIsOutside(running: seq<ContainerRecord>, victims: seq<ContainerRecord>, rest: seq<ContainerRecord>)
    requires DistinctBy(running, ContainerIdOf()) && multiset(victims + rest) == multiset(running)
    ensures forall c :: c in rest ==> Outside(victims)(c)
  {
    forall c | c in rest ensures Outside(victims)(c) {
      OccursOnce(running, ContainerIdOf(), c);
      assert multiset(victims + rest)[c] == multiset(victims)[c] + multiset(rest)[c];
      assert c in multiset(rest);
      assert c !in multiset(victims);
    }
  }

  /** Of distinct rows, those that are not among the victims are the rest. */
  lemma CountRest(running: seq<ContainerRecord>, victims: seq<ContainerRecord>, rest: seq<ContainerRecord>)
    requires DistinctBy(running, ContainerIdOf()) && multiset(victims + rest) == multiset(running)
    ensures Count(running, Outside(victims)) == |rest|
  {
    RestIsOutside(running, victims, rest);
    CountPermuted(running, victims + rest, Outside(victims));
    CountConcat(victims, rest, Outside(victims));
    CountNone(victims, Outside(victims));
    CountAll(rest, Outside(victims));
  }

  lemma {:induction false} LeftAfterVictims(running: seq<ContainerRecord>, count: nat)
    requires DistinctBy(running, ContainerIdOf()) && count <= |running|
    ensures Count(running, Outside(Victims(running, count))) == |running| - count
  {
    hide SortDesc, Outside, DistinctBy;
    SortDescSorts(running, StartedAtOf());
    var sorted := SortDesc(running, StartedAtOf());
    assert sorted == sorted[..count] + sorted[count..];
    CountRest(running, sorted[..count], sorted[count..]);
  }

  /** The same rows in any order count the same. */
  lemma CountSynced(a: seq<ContainerRecord>, b: seq<ContainerRecord>, p: ContainerRecord -> bool)
    requires DistinctBy(a, ContainerIdOf()) && DistinctBy(b, ContainerIdOf())
    requires forall e :: e in a <==> e in b
    ensures Count(a, p) == Count(b, p)
  {
    forall x ensures multiset(a)[x] == multiset(b)[x] {
      OccursOnce(a, ContainerIdOf(), x);
      OccursOnce(b, ContainerIdOf(), x);
      assert x in multiset(a) <==> x in a;
      assert x in multiset(b) <==> x in b;
    }
    assert multiset(a) == multiset(b);
    CountPermuted(a, b, p);
  }

  /** In a rested cluster the pass leaves the running rows of `d` minus the excess. */
  lemma WillRunAfterPass(c: Cluster, k: Setup, m: Moment, d: Deployment)
    requires Rested(c, k) && NoneStale(c.t, k.master, m.now) && d in c.t.deployments
    ensures Count(c.engines, WillRun(Reconciled(c, k, m).t, Is(d.deploymentId)))
         == RunningCount(c.t, d.deploymentId) - Excess(c.t.containers, d)
  {
    var cs := c.t.containers;
    var t' := Reconciled(c, k, m).t;
    var will := WillRun(t', Is(d.deploymentId));
    var running := Filter(cs, RunningOf(d.deploymentId));
    hide Pass, PendingStops, Tidy, Injective, SortDesc, Victims;
    forall x | x in cs ensures will(x) <==> RunningOf(d.deploymentId)(x) && Outside(ExcessRows(cs, d))(x) {
      if RunningOf(d.deploymentId)(x) {
        PassStops(c.t, k, m, d, x);
      }
    }
    CountSynced(c.engines, cs, will);
    CountOfFilter(cs, RunningOf(d.deploymentId), Outside(ExcessRows(cs, d)), will);
    FilterDistinct(cs, RunningOf(d.deploymentId), ContainerIdOf());
    LeftAfterVictims(running, Excess(cs, d));
  }

  /** The creates pending after the pass make up for what is missing. */
  lemma ComingAfterPass(c: Cluster, k: Setup, m: Moment, d: Deployment)
    requires Rested(c, k) && Smooth(c, k, m) && d in c.t.deployments
    ensures PendingCreates(Reconciled(c, k, m).t, d.deploymentId)
         == if RunningCount(c.t, d.deploymentId) < d.replicas then d.replicas - RunningCount(c.t, d.deploymentId) else 0
  {
    var id := d.deploymentId;
    var r := RunningCount(c.t, id);
    var most := if r < d.replicas then d.replicas else r;
    CountNone(c.t.assignments, PendingCreateOf(id));
    assert AskedAtMost(c.t.deployments, id, most) by {
      forall x | x in c.t.deployments && x.deploymentId == id ensures x == d {
        var i :| 0 <= i < |c.t.deployments| && c.t.deployments[i] == x;
        var j :| 0 <= j < |c.t.deployments| && c.t.deployments[j] == d;
        assert DeploymentIdOf()(c.t.deployments[i]) == DeploymentIdOf()(c.t.deployments[j]);
      }
    }
    PassKeepsBound(c.t, k.master, m.now, m.tick, id, most);
    PassIsDrawn(c.t, k.master, m.now, m.tick);
    hide Pass;
    assert RunningCount(Reconciled(c, k, m).t, id) == r;
    assert d in Reconciled(c, k, m).t.deployments;
  }

  /** A pass over a rested cluster makes every deployment's intended number its replicas. */
  lemma PassIntendsReplicas(c: Cluster, k: Setup, m: Moment, d: Deployment)
    requires Rested(c, k) && Smooth(c, k, m) && d in c.t.deployments
    ensures Intent(Reconciled(c, k, m), Is(d.deploymentId)) == d.replicas
  {
    var t' := Reconciled(c, k, m).t;
    hide Pass, Smooth;
    assert NoneStale(c.t, k.master, m.now) by { SmoothMeans(c, k, m); }
    WillRunAfterPass(c, k, m, d);
    ComingAfterPass(c, k, m, d);
    CountSame(t'.assignments, Coming(Is(d.deploymentId)), PendingCreateOf(d.deploymentId));
    assert d.replicas >= 0;
  }

  lemma SmoothMeans(c: Cluster, k: Setup, m: Moment)
    requires Smooth(c, k, m)
    ensures NoneStale(c.t, k.master, m.now)
  {
  }

  /** ... and the intended number of orphans zero. */
  lemma PassIntendsNoOrphan(c: Cluster, k: Setup, m: Moment)
    requires Rested(c, k) && NoneStale(c.t, k.master, m.now)
    ensures Intent(Reconciled(c, k, m), Orphaned(DeploymentIds(c.t))) == 0
  {
    var t' := Reconciled(c, k, m).t;
    var live := DeploymentIds(c.t);
    PassIsDrawn(c.t, k.master, m.now, m.tick);
    QuietHealth(c.t, k.master, m.now);
    forall e | e in c.engines ensures !WillRun(t', Orphaned(live))(e) {
      if Orphan(e, live) {
        assert e in AfterHealth(c.t, k.master, m.now).containers;
        OrphanGetsOneStop(c.t, k.master, m.now, m.tick, e);
      }
    }
    hide Pass;
    CountNone(c.engines, WillRun(t', Orphaned(live)));
    forall a | a in t'.assignments ensures !Coming(Orphaned(live))(a) {
    }
    CountNone(t'.assignments, Coming(Orphaned(live)));
  }

  // ---- One round -----------------------------------------------------------

  lemma {:induction false} PassKeepsBase(c: Cluster, k: Setup, m: Moment)
    requires Base(c, k) && NoneStale(c.t, k.master, m.now)
    ensures Reconciled(c, k, m).t.containers == c.t.containers
    ensures Reconciled(c, k, m).t.deployments == c.t.deployments
    ensures Base(Reconciled(c, k, m), k)
  {
    PassKeepsValid(c.t, k.master, m.now, m.tick);
    PassIsDrawn(c.t, k.master, m.now, m.tick);
    hide Pass, Registered;
  }

  lemma PassIsMatched(c: Cluster, k: Setup, m: Moment)
    requires Rested(c, k) && NoneStale(c.t, k.master, m.now)
    ensures Matched(Reconciled(c, k, m), k.name)
  {
    var v := Reconciled(c, k, m);
    PassIsDrawn(c.t, k.master, m.now, m.tick);
    hide Pass, Registered, Injective;
    forall b, e | PendingStop(v.t, b) && e in v.engines && e.containerId == b.containerId ensures e.nodeId == b.nodeId {
      var r :| r in c.t.containers && r.containerId == b.containerId && r.nodeId == b.nodeId;
      SameIdSameRow(c.engines, r, e);
    }
    forall a, b | a in v.t.assignments && a.action.Create? && IsPending(a) && PendingStop(v.t, b)
      ensures k.name(a.assignmentId) != b.containerId
    {
      var r :| r in c.t.containers && r.containerId == b.containerId && r.nodeId == b.nodeId;
      assert r in c.engines;
    }
  }

  lemma {:induction false} AckAllKeepsValid(t: Tables, batch: seq<Assignment>)
    requires Valid(t)
    ensures Valid(AckAll(t, batch))
    decreases |batch|
  {
    hide Valid;
    if batch != [] {
      AcknowledgeKeepsValid(t, batch[0].assignmentId);
      AckAllKeepsValid(AcknowledgeAssignment(t, batch[0].assignmentId), batch[1..]);
    }
  }

  lemma {:induction false} WorkAllKeepsValid(c: Cluster, ns: seq<Id>, name: nat -> Id, now: Time)
    requires Valid(c.t)
    ensures Valid(WorkAll(c, ns, name, now).t)
    decreases |ns|
  {
    hide Valid;
    if ns != [] {
      AckAllKeepsValid(c.t, PendingAssignments(c.t, ns[0]));
      WorkAllKeepsValid(Work(c, ns[0], name, now), ns[1..], name, now);
    }
  }

  lemma {:induction false} ReportAllKeepsValid(c: Cluster, ns: seq<Id>, usage: Id -> (int, int), now: Time)
    requires Valid(c.t)
    ensures Valid(ReportAll(c, ns, usage, now).t)
    decreases |ns|
  {
    hide Valid;
    if ns != [] {
      UpdateHeartbeatKeepsValid(c.t, ns[0], Filter(c.engines, OnNode(ns[0])), usage(ns[0]).0, usage(ns[0]).1, now);
      ReportAllKeepsValid(ReportOne(c, ns[0], usage, now), ns[1..], usage, now);
    }
  }

  lemma {:induction false} WorkedIsDone(c: Cluster, k: Setup, m: Moment)
    requires Base(c, k) && Smooth(c, k, m)
    ensures Base(Worked(c, k, m), k) && NothingPending(Worked(c, k, m).t)
    ensures Worked(c, k, m).t.deployments == c.t.deployments
  {
    var b := Reconciled(c, k, m);
    PassKeepsBase(c, k, m);
    hide Pass, Reconciled;
    WorkAllKeepsTidy(b, k.agents, k.name, m.now);
    WorkAllFrame(b, k.agents, k.name, m.now);
    WorkAllKeepsValid(b, k.agents, k.name, m.now);
    var v := Worked(c, k, m);
    assert v.t.nodes == b.t.nodes && v.t.containers == b.t.containers && v.t.deployments == b.t.deployments;
    assert forall n :: Registered(v.t, n) <==> Registered(b.t, n);
    hide WorkAll, Injective, Valid, Tidy;
  }

  lemma RoundIs(c: Cluster, k: Setup, m: Moment)
    ensures Round(c, k, m) == ReportAll(Worked(c, k, m), k.agents, k.usage, m.now)
  {
  }

  lemma TidyFrame(w: Cluster, v: Cluster, name: nat -> Id)
    requires Tidy(w, name)
    requires v.engines == w.engines && v.t.assignments == w.t.assignments && v.t.nextId == w.t.nextId
    ensures Tidy(v, name)
  {
  }

  /** Reports from all agents bring the table in line with the engines. */
  lemma {:induction false} ReportsSync(w: Cluster, k: Setup, now: Time)
    requires DistinctBy(w.t.containers, ContainerIdOf()) && DistinctBy(w.engines, ContainerIdOf())
    requires forall n :: n in k.agents ==> Registered(w.t, n)
    requires forall e :: e in w.t.containers ==> e.nodeId in k.agents
    requires forall e :: e in w.engines ==> e.nodeId in k.agents
    ensures Synced(ReportAll(w, k.agents, k.usage, now))
  {
    var v := ReportAll(w, k.agents, k.usage, now);
    ReportAllShows(w, k.agents, k.usage, now);
    ReportAllFrame(w, k.agents, k.usage, now);
    hide ReportAll, Registered, DistinctBy;
    forall e: ContainerRecord ensures e in v.t.containers <==> e in v.engines {
      if e.nodeId in k.agents {
        assert ShownOn(v, e.nodeId);
      }
    }
  }

  lemma BaseFrame(w: Cluster, v: Cluster, k: Setup)
    requires Base(w, k) && Valid(v.t) && Synced(v)
    requires v.engines == w.engines && v.t.assignments == w.t.assignments && v.t.nextId == w.t.nextId
    requires v.t.deployments == w.t.deployments && forall m :: Registered(v.t, m) <==> Registered(w.t, m)
    ensures Base(v, k)
  {
    TidyFrame(w, v, k.name);
    hide Registered, Valid, Tidy, Injective, DistinctBy;
  }

  /** After a round the table shows the engines and nothing is pending. */
  lemma {:induction false} RoundRests(c: Cluster, k: Setup, m: Moment)
    requires Base(c, k) && Smooth(c, k, m)
    ensures Rested(Round(c, k, m), k)
    ensures Round(c, k, m).t.deployments == c.t.deployments
    ensures Round(c, k, m).engines == Worked(c, k, m).engines
  {
    var w := Worked(c, k, m);
    var v := Round(c, k, m);
    WorkedIsDone(c, k, m);
    RoundIs(c, k, m);
    hide Round, Worked, Smooth, Tidy, Injective, Registered;
    ReportsSync(w, k, m.now);
    ReportAllFrame(w, k.agents, k.usage, m.now);
    ReportAllKeepsValid(w, k.agents, k.usage, m.now);
    hide ReportAll, Base, Valid, Synced;
    BaseFrame(w, v, k);
  }

  /** From a rested cluster one round of work gives every deployment its replicas. */
  lemma {:induction false} WorkMeetsReplicas(c: Cluster, k: Setup, m: Moment, d: Deployment)
    requires Rested(c, k) && Smooth(c, k, m) && d in c.t.deployments
    ensures Count(Worked(c, k, m).engines, RunningOf(d.deploymentId)) == d.replicas
  {
    var b := Reconciled(c, k, m);
    var w := Worked(c, k, m);
    SmoothMeans(c, k, m);
    PassKeepsBase(c, k, m);
    PassIsMatched(c, k, m);
    WorkedIsDone(c, k, m);
    PassIntendsReplicas(c, k, m, d);
    hide Reconciled, Smooth, Pass, Tidy, Matched, Valid, Injective, Intent, Synced;
    WorkAllConserves(b, k.agents, k.name, m.now, Is(d.deploymentId));
    DoneIntent(w, Is(d.deploymentId));
    CountSame(w.engines, RunningIn(Is(d.deploymentId)), RunningOf(d.deploymentId));
  }

  lemma {:induction false} WorkRemovesOrphans(c: Cluster, k: Setup, m: Moment)
    requires Rested(c, k) && Smooth(c, k, m)
    ensures forall e :: e in Worked(c, k, m).engines ==> !Orphan(e, DeploymentIds(c.t))
  {
    var b := Reconciled(c, k, m);
    var w := Worked(c, k, m);
    var live := DeploymentIds(c.t);
    SmoothMeans(c, k, m);
    PassKeepsBase(c, k, m);
    PassIsMatched(c, k, m);
    WorkedIsDone(c, k, m);
    PassIntendsNoOrphan(c, k, m);
    hide Reconciled, Smooth, Pass, Tidy, Matched, Valid, Injective, Intent, Synced;
    WorkAllConserves(b, k.agents, k.name, m.now, Orphaned(live));
    DoneIntent(w, Orphaned(live));
    forall e | e in w.engines ensures !Orphan(e, live) {
      if Orphan(e, live) {
        CountPositive(w.engines, RunningIn(Orphaned(live)), e);
      }
    }
  }

  /** From a rested cluster one round converges. */
  lemma {:induction false} RestedRoundConverges(c: Cluster, k: Setup, m: Moment)
    requires Rested(c, k) && Smooth(c, k, m)
    ensures Converged(Round(c, k, m), k)
  {
    hide Round, Worked, Base, Smooth, Count, Orphan;
    var w := Worked(c, k, m);
    var v := Round(c, k, m);
    RoundRests(c, k, m);
    WorkRemovesOrphans(c, k, m);
    forall d | d in c.t.deployments
      ensures Count(w.engines, RunningOf(d.deploymentId)) == d.replicas
    {
      WorkMeetsReplicas(c, k, m, d);
    }
    forall d | d in v.t.deployments ensures RunningCount(v.t, d.deploymentId) == d.replicas {
      CountSynced(v.t.containers, v.engines, RunningOf(d.deploymentId));
    }
  }

  function RunningIn(ds: Id -> bool): ContainerRecord -> bool {
    (c: ContainerRecord) => ds(c.deploymentId) && c.status.Running?
  }

  /** When nothing is pending, what is intended is what runs. */
  lemma DoneIntent(c: Cluster, ds: Id -> bool)
    requires NothingPending(c.t)
    ensures Intent(c, ds) == Count(c.engines, RunningIn(ds))
  {
    CountNone(c.t.assignments, Coming(ds));
    forall e | e in c.engines ensures WillRun(c.t, ds)(e) <==> RunningIn(ds)(e) {
      CountNone(c.t.assignments, PendingStopOf(e.containerId));
      assert PendingStops(c.t, e.containerId) == 0;
      assert WillRun(c.t, ds)(e) == (ds(e.deploymentId) && e.status.Running?);
    }
    CountSame(c.engines, WillRun(c.t, ds), RunningIn(ds));
  }

  /**
   From any state two rounds make the running containers of every deployment, in the
   engines and in the table, exactly its replicas, with no orphan left.
   */
  lemma {:induction false} TwoRoundsConverge(c: Cluster, k: Setup, m1: Moment, m2: Moment)
    requires Base(c, k) && Smooth(c, k, m1) && Smooth(Round(c, k, m1), k, m2)
    ensures Converged(Round(Round(c, k, m1), k, m2), k)
  {
    hide Base, Smooth, Round;
    RoundRests(c, k, m1);
    RestedRoundConverges(Round(c, k, m1), k, m2);
  }

  // ---- And then stays --------------------------------------------------------

  lemma {:induction false} NoDeficitNoChange(
    t: Tables, ds: seq<Deployment>, snapshot: seq<ContainerRecord>, now: Time)
    requires forall d :: d in ds ==> Deficit(t, d, snapshot) == 0
    ensures ReconcileDeployments(t, ds, snapshot, now) == t
    decreases |ds|
  {
    hide ScaleUp, StopAll, Deficit;
    if ds != [] {
      assert ds[0] in ds && forall d :: d in ds[1..] ==> d in ds;
      NoDeficitNoChange(t, ds[1..], snapshot, now);
    }
  }

  lemma {:induction false} NoOrphanNoChange(t: Tables, rows: seq<ContainerRecord>, live: set<Id>, now: Time)
    requires forall r :: r in rows ==> !Orphan(r, live)
    ensures CleanupOrphans(t, rows, live, now) == t
    decreases |rows|
  {
    if rows != [] {
      assert rows[0] in rows && forall r :: r in rows[1..] ==> r in rows;
      NoOrphanNoChange(t, rows[1..], live, now);
    }
  }

  /** A pass over a converged cluster in which no node times out adds no assignment at all. */
  lemma {:induction false} ConvergedPassAddsNothing(c: Cluster, k: Setup, m: Moment)
    requires Converged(c, k) && NoneStale(c.t, k.master, m.now)
    ensures forall a :: a in Reconciled(c, k, m).t.assignments ==> a in c.t.assignments
    ensures Reconciled(c, k, m).t.containers == c.t.containers
  {
    var t2 := KeepMasterAlive(c.t, k.master, m.now);
    QuietHealth(c.t, k.master, m.now);
    forall d | d in t2.deployments ensures Deficit(t2, d, t2.containers) == 0 {
      CountNone(c.t.assignments, PendingCreateOf(d.deploymentId));
    }
    NoDeficitNoChange(t2, t2.deployments, t2.containers, m.now);
    NoOrphanNoChange(t2, t2.containers, DeploymentIds(t2), m.now);
  }

  /** Any number of further rounds. */
  function Rounds(c: Cluster, k: Setup, ms: seq<Moment>): Cluster
    decreases |ms|
  {
    if ms == [] then c else Rounds(Round(c, k, ms[0]), k, ms[1..])
  }

  /** No node goes stale before any of these passes. */
  ghost predicate NeverStale(c: Cluster, k: Setup, ms: seq<Moment>)
    decreases |ms|
  {
    ms == [] || (NoneStale(c.t, k.master, ms[0].now) && NeverStale(Round(c, k, ms[0]), k, ms[1..]))
  }

  /** A converged cluster asks nothing of its nodes. */
  lemma {:induction false} ConvergedIsSmooth(c: Cluster, k: Setup, m: Moment)
    requires Converged(c, k) && NoneStale(c.t, k.master, m.now)
    ensures Smooth(c, k, m)
  {
    ConvergedPassAddsNothing(c, k, m);
    PassIsDrawn(c.t, k.master, m.now, m.tick);
    hide Pass;
    var t := Reconciled(c, k, m).t;
    assert t.deployments == c.t.deployments && t.containers == c.t.containers;
  }

  lemma {:induction false} ConvergedForGood(c: Cluster, k: Setup, ms: seq<Moment>)
    requires Converged(c, k) && NeverStale(c, k, ms)
    ensures Converged(Rounds(c, k, ms), k)
    decreases |ms|
  {
    hide Rested, Smooth, Round, NoneStale;
    if ms != [] {
      ConvergedIsSmooth(c, k, ms[0]);
      RestedRoundConverges(c, k, ms[0]);
      ConvergedForGood(Round(c, k, ms[0]), k, ms[1..]);
    }
  }
}
