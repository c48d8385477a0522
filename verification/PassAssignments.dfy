/**
 What a pass writes: every assignment it issues says what the deployment or the container it is
 for says, every other assignment stays, and nothing else of a row changes than what it has to.
 */
module PassAssignments {
  import opened Seqs
  import opened Tables
  import opened StateStore
  import opened Scheduling
  import opened Reconciliation
  import opened PassMachine
  import opened PassIdempotence

  /** A create names its deployment and carries what that one runs. */
  predicate Asks(d: Deployment, a: Assignment) {
    (a.deploymentId, a.serviceName, a.work) == (d.deploymentId, d.serviceName, d.work)
  }

  /** A stop names a container where it is; the service is its deployment's, or its own if it has none left. */
  ghost predicate Stops(t: Tables, r: ContainerRecord, a: Assignment) {
    && a.containerId == r.containerId && a.nodeId == r.nodeId
    && ((exists d :: d in t.deployments && d.deploymentId == r.deploymentId
           && (a.deploymentId, a.serviceName) == (d.deploymentId, d.serviceName))
        || (r.deploymentId != "" && (forall d :: d in t.deployments ==> d.deploymentId != r.deploymentId)
            && (a.deploymentId, a.serviceName) == ("", r.serviceName)))
  }

  ghost predicate AsAsked(t: Tables, now: Time, a: Assignment) {
    && !a.acknowledged && a.createdAt == now && Registered(t, a.nodeId)
    && if a.action.Create?
       then a.containerId == "" && exists d :: d in t.deployments && Asks(d, a)
       else a.work == NO_WORKLOAD && exists r :: r in t.containers && r.status.Running? && Stops(t, r, a)
  }

  /** What may go when old assignments are cleared away. */
  predicate Old(a: Assignment, now: Time) { a.acknowledged && a.createdAt < now - 3600.0 }

  /** The tables a pass over `t` has come to; `stale` when it has found stale nodes, `cleared` when it has tidied up. */
  ghost function Issued(t: Tables, now: Time, stale: bool, cleared: bool): Tables -> bool {
    (u: Tables) =>
      && u.deployments == t.deployments && u.nextId >= t.nextId
      && (!stale ==> u.containers == t.containers)
      && (forall n :: Registered(u, n) <==> Registered(t, n))
      && (forall a :: a in t.assignments ==> (a in u.assignments <==> !(cleared && Old(a, now))))
      && (forall a :: a in u.assignments && a !in t.assignments ==>
            && a.assignmentId >= t.nextId && AsAsked(t, now, a)
            && (a.action.Create? ==> RegisteredHealthy(u, a.nodeId)))
  }

  /** The running rows of a snapshot are rows of `t`. */
  ghost predicate RunningFrom(t: Tables, rows: seq<ContainerRecord>) {
    forall r :: r in rows && r.status.Running? ==> r in t.containers
  }

  ghost predicate AllOf(t: Tables, ds: seq<Deployment>) { forall d :: d in ds ==> d in t.deployments }

  /** What each stage has in hand. */
  ghost predicate InHand(t: Tables, stale: bool, s: Stage) {
    match s
    case Marking(ids, unhealthy) => !stale ==> ids == [] && unhealthy == []
    case Failing(nodes) => !stale ==> nodes == []
    case Losing(_, _) => stale
    case Listing(snapshot) => RunningFrom(t, snapshot)
    case Scaling(snapshot, todo) => RunningFrom(t, snapshot) && AllOf(t, todo)
    case Placing(d, _, snapshot, todo) => RunningFrom(t, snapshot) && d in t.deployments && AllOf(t, todo)
    case Stopping(d, victims, snapshot, todo) =>
      && RunningFrom(t, snapshot) && d in t.deployments && AllOf(t, todo)
      && forall v :: v in victims ==> v in t.containers && v.status.Running? && v.deploymentId == d.deploymentId
    case Reaping(rows, live) => RunningFrom(t, rows) && live == DeploymentIds(t)
  }

  predicate Early(s: Stage) { s.Marking? || s.Failing? || s.Losing? }

  ghost function Issuing(t: Tables, now: Time, tick: nat, stale: bool): Config -> bool {
    (c: Config) =>
      if c.pass.Idle? then Issued(t, now, stale, tick % 60 == 0)(c.t)
      else
        && c.pass.now == now && c.pass.tick == tick
        && Issued(t, now, stale, false)(c.t) && InHand(t, stale, c.pass.stage)
        && (Early(c.pass.stage) ==> c.t.assignments == t.assignments && RunningFrom(t, c.t.containers))
  }

  lemma NodesKeepIssued(t: Tables, now: Time, stale: bool, u: Tables, f: NodeInfo -> NodeInfo)
    requires Issued(t, now, stale, false)(u)
    requires forall x :: x in u.nodes ==> f(x).nodeId == x.nodeId
    requires u.assignments == t.assignments || forall x :: x in u.nodes ==> f(x).status == x.status
    ensures Issued(t, now, stale, false)(u.(nodes := Map(u.nodes, f)))
  {
    var v := u.(nodes := Map(u.nodes, f));
    assert forall i :: 0 <= i < |u.nodes| ==> v.nodes[i] == f(u.nodes[i]) && u.nodes[i] in u.nodes;
    forall n ensures Registered(v, n) <==> Registered(u, n) {
      MapKeepsRegistered(u, f, n);
    }
    forall n | u.assignments != t.assignments && RegisteredHealthy(u, n) ensures RegisteredHealthy(v, n) {
      var i :| 0 <= i < |u.nodes| && u.nodes[i].nodeId == n && u.nodes[i].status.Healthy?;
      assert v.nodes[i].nodeId == n && v.nodes[i].status.Healthy?;
    }
    hide AsAsked;
  }

  lemma AssignKeepsIssued(t: Tables, now: Time, stale: bool, u: Tables, n: Id, action: Action, d: Id, c: Id,
                          service: string, work: Workload)
    requires Issued(t, now, stale, false)(u)
    requires action.Create? ==> RegisteredHealthy(u, n)
    requires Registered(u, n) ==> AsAsked(t, now, Assignment(u.nextId, n, action, d, c, service, work, now, false))
    ensures Issued(t, now, stale, false)(CreateAssignment(u, n, action, d, c, service, work, now))
  {
    var v := CreateAssignment(u, n, action, d, c, service, work, now);
    hide AsAsked;
    assert forall m :: Registered(v, m) <==> Registered(u, m);
    assert forall m :: RegisteredHealthy(v, m) <==> RegisteredHealthy(u, m);
  }

  lemma ClearKeepsIssued(t: Tables, now: Time, stale: bool, u: Tables)
    requires Issued(t, now, stale, false)(u)
    ensures Issued(t, now, stale, true)(ClearOldAssignments(u, now))
  {
    var v := ClearOldAssignments(u, now);
    assert forall m :: Registered(v, m) <==> Registered(u, m);
    assert forall m :: RegisteredHealthy(v, m) <==> RegisteredHealthy(u, m);
    forall a | a in u.assignments ensures a in v.assignments <==> !Old(a, now) {
      assert RetainedSince(now - ASSIGNMENT_RETENTION)(a) <==> !Old(a, now);
    }
    hide AsAsked;
  }

  /** Nothing but a node's rows become LOST, so that what runs afterwards ran before. */
  lemma LoseKeepsIssued(t: Tables, now: Time, stale: bool, u: Tables, r: ContainerRecord)
    requires stale && Issued(t, now, stale, false)(u) && RunningFrom(t, u.containers)
    ensures Issued(t, now, stale, false)(LoseRow(u, r)) && RunningFrom(t, LoseRow(u, r).containers)
  {
    var v := LoseRow(u, r);
    assert forall m :: Registered(v, m) <==> Registered(u, m);
    assert forall m :: RegisteredHealthy(v, m) <==> RegisteredHealthy(u, m);
    forall c | c in v.containers && c.status.Running? ensures c in u.containers {
      var i :| 0 <= i < |v.containers| && v.containers[i] == c;
      assert u.containers[i] == c;
    }
    hide AsAsked;
  }

  lemma PlaceKeepsIssued(t: Tables, now: Time, stale: bool, u: Tables, d: Deployment)
    requires Issued(t, now, stale, false)(u) && d in t.deployments && Choose(u, d.work).Placed?
    ensures Issued(t, now, stale, false)(Place(u, d, Choose(u, d.work).decision.node.nodeId, now))
  {
    var x := Choose(u, d.work).decision.node;
    ChoiceIsBest(u, d.work);
    hide Choose, Score, Issued;
    var i :| 0 <= i < |u.nodes| && u.nodes[i] == x;
    assert RegisteredHealthy(u, x.nodeId) && Registered(u, x.nodeId);
    var a := Assignment(u.nextId, x.nodeId, Create, d.deploymentId, "", d.serviceName, d.work, now, false);
    assert Asks(d, a);
    assert Registered(t, x.nodeId) by { IssuedMeans(t, now, stale, u); }
    assert AsAsked(t, now, a);
    AssignKeepsIssued(t, now, stale, u, x.nodeId, Create, d.deploymentId, "", d.serviceName, d.work);
    var v := CreateAssignment(u, x.nodeId, Create, d.deploymentId, "", d.serviceName, d.work, now);
    NodesKeepIssued(t, now, stale, v, Reserving(x.nodeId, d.work.cpu, d.work.memory));
  }

  lemma IssuedMeans(t: Tables, now: Time, stale: bool, u: Tables)
    requires Issued(t, now, stale, false)(u)
    ensures u.deployments == t.deployments && (!stale ==> u.containers == t.containers)
    ensures forall n :: Registered(u, n) <==> Registered(t, n)
  {
  }

  lemma {:induction false} EarlyKeepsIssuing(t: Tables, now: Time, tick: nat, stale: bool, c: Config)
    requires c.pass.Busy? && Issuing(t, now, tick, stale)(c) && Early(c.pass.stage)
    ensures Issuing(t, now, tick, stale)(Advance(c))
  {
    hide Issued;
    assert InHand(t, stale, c.pass.stage) && RunningFrom(t, c.t.containers);
    var v := Advance(c);
    if c.pass.stage.Marking? && c.pass.stage.ids != [] {
      var n := c.pass.stage.ids[0];
      NodesKeepIssued(t, now, stale, c.t, MarkedUnhealthy(n));
      assert v.t == c.t.(nodes := Map(c.t.nodes, MarkedUnhealthy(n)));
    } else if c.pass.stage.Losing? && c.pass.stage.rows != [] {
      LoseKeepsIssued(t, now, stale, c.t, c.pass.stage.rows[0]);
    }
    assert Issued(t, now, stale, false)(v.t) && InHand(t, stale, v.pass.stage);
    assert v.t.assignments == t.assignments && RunningFrom(t, v.t.containers);
  }

  lemma {:induction false} ReapKeepsIssuing(t: Tables, now: Time, tick: nat, stale: bool, c: Config)
    requires c.pass.Busy? && Issuing(t, now, tick, stale)(c) && c.pass.stage.Reaping?
    requires RowsRegistered(t, t.containers)
    ensures Issuing(t, now, tick, stale)(Advance(c))
  {
    hide Issued, HasPendingStop, Registered;
    var u, rows := c.t, c.pass.stage.rows;
    IssuedMeans(t, now, stale, u);
    if rows == [] {
      ClearKeepsIssued(t, now, stale, u);
    } else if Orphan(rows[0], DeploymentIds(t)) {
      var r := rows[0];
      assert r in rows && r in t.containers;
      var a := Assignment(u.nextId, r.nodeId, Stop, "", r.containerId, r.serviceName, NO_WORKLOAD, now, false);
      assert Stops(t, r, a);
      assert AsAsked(t, now, a);
      AssignKeepsIssued(t, now, stale, u, r.nodeId, Stop, "", r.containerId, r.serviceName, NO_WORKLOAD);
    }
  }

  lemma {:induction false} StopKeepsIssuing(t: Tables, now: Time, tick: nat, stale: bool, c: Config)
    requires c.pass.Busy? && Issuing(t, now, tick, stale)(c) && c.pass.stage.Stopping?
    requires RowsRegistered(t, t.containers)
    ensures Issuing(t, now, tick, stale)(Advance(c))
  {
    hide Issued, Registered;
    var u, d, victims := c.t, c.pass.stage.d, c.pass.stage.victims;
    IssuedMeans(t, now, stale, u);
    if victims != [] {
      var r := victims[0];
      assert r in victims && forall x :: x in victims[1..] ==> x in victims;
      var a := Assignment(u.nextId, r.nodeId, Stop, d.deploymentId, r.containerId, d.serviceName, NO_WORKLOAD, now, false);
      assert Stops(t, r, a);
      assert AsAsked(t, now, a);
      AssignKeepsIssued(t, now, stale, u, r.nodeId, Stop, d.deploymentId, r.containerId, d.serviceName, NO_WORKLOAD);
    }
  }

  lemma {:induction false} ScalingKeepsIssuing(t: Tables, now: Time, tick: nat, stale: bool, c: Config)
    requires c.pass.Busy? && Issuing(t, now, tick, stale)(c) && c.pass.stage.Scaling?
    ensures Issuing(t, now, tick, stale)(Advance(c))
  {
    hide Issued, Victims, RunningFrom;
    var snapshot, todo := c.pass.stage.snapshot, c.pass.stage.todo;
    IssuedMeans(t, now, stale, c.t);
    if todo != [] {
      assert todo[0] in todo && forall d :: d in todo[1..] ==> d in todo;
      var deficit := Deficit(c.t, todo[0], snapshot);
      VictimsRun(t, snapshot, todo[0].deploymentId, if deficit < 0 then -deficit else 0);
      hide Deficit;
    }
  }

  lemma VictimsRun(t: Tables, snapshot: seq<ContainerRecord>, d: Id, count: nat)
    requires RunningFrom(t, snapshot)
    ensures forall v :: v in Victims(Filter(snapshot, RunningOf(d)), count) ==>
      v in t.containers && v.status.Running? && v.deploymentId == d
  {
    VictimsAreRunning(Filter(snapshot, RunningOf(d)), count);
    hide Victims;
    assert forall v :: v in Filter(snapshot, RunningOf(d)) ==> v in snapshot && RunningOf(d)(v);
  }

  lemma {:induction false} PlacingKeepsIssuing(t: Tables, now: Time, tick: nat, stale: bool, c: Config)
    requires c.pass.Busy? && Issuing(t, now, tick, stale)(c) && (c.pass.stage.Placing? || c.pass.stage.Listing?)
    ensures Issuing(t, now, tick, stale)(Advance(c))
  {
    hide Issued, Choose, RunningFrom;
    IssuedMeans(t, now, stale, c.t);
    if c.pass.stage.Placing? && c.pass.stage.left != 0 && Choose(c.t, c.pass.stage.d.work).Placed? {
      PlaceKeepsIssued(t, now, stale, c.t, c.pass.stage.d);
    }
  }

  lemma {:induction false} AdvanceKeepsIssuing(t: Tables, now: Time, tick: nat, stale: bool, c: Config)
    requires c.pass.Busy? && Issuing(t, now, tick, stale)(c) && RowsRegistered(t, t.containers)
    ensures Issuing(t, now, tick, stale)(Advance(c))
  {
    hide Issuing, Advance;
    match c.pass.stage
    case Scaling(_, _) => ScalingKeepsIssuing(t, now, tick, stale, c);
    case Stopping(_, _, _, _) => StopKeepsIssuing(t, now, tick, stale, c);
    case Reaping(_, _) => ReapKeepsIssuing(t, now, tick, stale, c);
    case Listing(_) => PlacingKeepsIssuing(t, now, tick, stale, c);
    case Placing(_, _, _, _) => PlacingKeepsIssuing(t, now, tick, stale, c);
    case _ => EarlyKeepsIssuing(t, now, tick, stale, c);
  }

  /**
   Over a whole pass: the deployments stay, every assignment there was stays unless it is old and
   the pass tidies up, and every one that is new asks for what its deployment runs, or stops a running
   container where it is; creates are on healthy nodes.
   */
  lemma {:induction false} PassIssues(t: Tables, master: Id, now: Time, tick: nat)
    requires Valid(t)
    ensures Issued(t, now, !NoneStale(t, master, now), tick % 60 == 0)(Pass(t, master, now, tick))
  {
    hide Pass, Advance, Registered, RegisteredHealthy;
    var stale := !NoneStale(t, master, now);
    var c := Begin(t, master, now, tick);
    assert Issued(t, now, stale, false)(t);
    NodesKeepIssued(t, now, stale, t, MasterBeating(master, now));
    ValidRegisters(t);
    PassAloneIsPass(t, master, now, tick);
    assert Issuing(t, now, tick, stale)(c);
    hide Issuing, Begin, NoneStale;
    forall x: Config | Issuing(t, now, tick, stale)(x) && x.pass.Busy? ensures Issuing(t, now, tick, stale)(Advance(x)) {
      AdvanceKeepsIssuing(t, now, tick, stale, x);
    }
    PassInduction(c, Issuing(t, now, tick, stale));
    IssuingEnds(t, now, tick, stale, Finish(c));
  }

  lemma IssuingEnds(t: Tables, now: Time, tick: nat, stale: bool, u: Tables)
    requires Issuing(t, now, tick, stale)(Config(u, Idle))
    ensures Issued(t, now, stale, tick % 60 == 0)(u)
  {
  }
}
