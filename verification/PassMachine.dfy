/**
 A pass cut into the transactions it consists of, so that other transactions
 can come in between, and the proof that without any it is `Pass`.
 */
module PassMachine {
  import opened Seqs
  import opened Tables
  import opened Scheduling
  import opened Reconciliation

  datatype Stage =
    | Marking(ids: seq<Id>, unhealthy: seq<Id>)
    | Failing(nodes: seq<Id>)
    | Losing(rows: seq<ContainerRecord>, nodes: seq<Id>)
    | Listing(snapshot: seq<ContainerRecord>)
    | Scaling(snapshot: seq<ContainerRecord>, todo: seq<Deployment>)
    | Placing(d: Deployment, left: nat, snapshot: seq<ContainerRecord>, todo: seq<Deployment>)
    | Stopping(d: Deployment, victims: seq<ContainerRecord>, snapshot: seq<ContainerRecord>, todo: seq<Deployment>)
    | Reaping(rows: seq<ContainerRecord>, live: set<Id>)

  datatype PassState = Idle | Busy(now: Time, tick: nat, stage: Stage)
  {
    function At(s: Stage): PassState
      requires Busy?
    {
      Busy(now, tick, s)
    }
  }

  datatype Config = Config(t: Tables, pass: PassState)

  function Begin(t: Tables, master: Id, now: Time, tick: nat): Config {
    var alive := KeepMasterAlive(t, master, now);
    Config(alive, Busy(now, tick, Marking(StaleNodes(alive, now), StaleNodes(alive, now))))
  }

  /** The next transaction of the pass; a refused foreign key abandons it. */
  function Advance(c: Config): Config
    requires c.pass.Busy?
  {
    var t, p := c.t, c.pass;
    match p.stage
    case Marking(ids, unhealthy) =>
      if ids == [] then Config(t, p.At(Failing(unhealthy)))
      else Config(MarkNodeUnhealthy(t, ids[0]), p.At(Marking(ids[1..], unhealthy)))
    case Failing(nodes) =>
      if nodes == [] then Config(t, p.At(Listing(t.containers)))
      else Config(t, p.At(Losing(Filter(t.containers, OnNode(nodes[0])), nodes[1..])))
    case Losing(rows, nodes) =>
      if rows == [] then Config(t, p.At(Failing(nodes)))
      else Config(LoseRow(t, rows[0]), p.At(Losing(rows[1..], nodes)))
    case Listing(snapshot) => Config(t, p.At(Scaling(snapshot, t.deployments)))
    case Scaling(snapshot, todo) =>
      if todo == [] then Config(t, p.At(Reaping(snapshot, DeploymentIds(t))))
      else
        var d := todo[0];
        var deficit := Deficit(t, d, snapshot);
        if deficit > 0 then Config(t, p.At(Placing(d, deficit, snapshot, todo[1..])))
        else if deficit < 0 then
          Config(t, p.At(Stopping(
            d, Victims(Filter(snapshot, RunningOf(d.deploymentId)), -deficit), snapshot, todo[1..])))
        else Config(t, p.At(Scaling(snapshot, todo[1..])))
    case Placing(d, left, snapshot, todo) =>
      if left == 0 || !Choose(t, d.work).Placed? then Config(t, p.At(Scaling(snapshot, todo)))
      else
        Config(Place(t, d, Choose(t, d.work).decision.node.nodeId, p.now),
               p.At(Placing(d, left - 1, snapshot, todo)))
    case Stopping(d, victims, snapshot, todo) =>
      if victims == [] then Config(t, p.At(Scaling(snapshot, todo)))
      else if !Registered(t, victims[0].nodeId) then Config(t, Idle)
      else Config(StopOne(t, d, victims[0], p.now), p.At(Stopping(d, victims[1..], snapshot, todo)))
    case Reaping(rows, live) =>
      if rows == [] then Config(Maintain(t, p.tick, p.now), Idle)
      else if Orphan(rows[0], live) && !HasPendingStop(t, rows[0].containerId)
              && !Registered(t, rows[0].nodeId) then Config(t, Idle)
      else Config(CleanupOne(t, rows[0], live, p.now), p.At(Reaping(rows[1..], live)))
  }

  // ---- A pass that nothing interrupts --------------------------------------

  function Rank(p: PassState): (int, int, int, int) {
    if p.Idle? then (0, 0, 0, 0)
    else match p.stage
      case Marking(ids, _) => (5, |ids|, 0, 0)
      case Failing(nodes) => (4, |nodes|, 0, 0)
      case Losing(rows, nodes) => (4, |nodes|, 1, |rows|)
      case Listing(_) => (3, 0, 0, 0)
      case Scaling(_, todo) => (2, |todo|, 0, 0)
      case Placing(_, left, _, todo) => (2, |todo|, 1, left)
      case Stopping(_, victims, _, todo) => (2, |todo|, 1, |victims|)
      case Reaping(rows, _) => (1, |rows|, 0, 0)
  }

  /** The tables when the rest of the pass has run alone. */
  function Finish(c: Config): Tables
    decreases Rank(c.pass).0, Rank(c.pass).1, Rank(c.pass).2, Rank(c.pass).3
  {
    if c.pass.Idle? then c.t
    else
      hide Advance, Rank;
      AdvanceDescends(c);
      Finish(Advance(c))
  }

  predicate Below(a: (int, int, int, int), b: (int, int, int, int)) {
    || a.0 < b.0
    || (a.0 == b.0 && a.1 < b.1)
    || (a.0 == b.0 && a.1 == b.1 && a.2 < b.2)
    || (a.0 == b.0 && a.1 == b.1 && a.2 == b.2 && a.3 < b.3)
  }

  lemma AdvanceDescends(c: Config)
    requires c.pass.Busy?
    ensures Below(Rank(Advance(c).pass), Rank(c.pass))
    ensures Rank(c.pass).0 >= 0 && Rank(c.pass).1 >= 0 && Rank(c.pass).2 >= 0 && Rank(c.pass).3 >= 0
  {
    hide Choose, Victims;
  }

  /** Whatever each transaction of a pass keeps, the whole pass keeps. */
  lemma {:induction false} PassInduction(c: Config, inv: Config -> bool)
    requires inv(c)
    requires forall x: Config :: inv(x) && x.pass.Busy? ==> inv(Advance(x))
    ensures inv(Config(Finish(c), Idle))
    decreases Rank(c.pass).0, Rank(c.pass).1, Rank(c.pass).2, Rank(c.pass).3
  {
    hide Advance, Rank;
    if c.pass.Busy? {
      AdvanceDescends(c);
      PassInduction(Advance(c), inv);
    }
  }

  predicate RowsRegistered(t: Tables, rows: seq<ContainerRecord>) {
    forall c :: c in rows ==> Registered(t, c.nodeId)
  }

  lemma MapKeepsRegistered(t: Tables, f: NodeInfo -> NodeInfo, n: Id)
    requires forall x :: x in t.nodes ==> f(x).nodeId == x.nodeId
    ensures Registered(t.(nodes := Map(t.nodes, f)), n) <==> Registered(t, n)
  {
    var u := t.(nodes := Map(t.nodes, f));
    assert forall i :: 0 <= i < |t.nodes| ==> u.nodes[i].nodeId == t.nodes[i].nodeId;
  }

  lemma {:induction false} FinishMarking(t: Tables, p: PassState, ids: seq<Id>, unhealthy: seq<Id>)
    requires p.Busy?
    ensures Finish(Config(t, p.At(Marking(ids, unhealthy))))
         == Finish(Config(MarkUnhealthyAll(t, ids), p.At(Failing(unhealthy))))
    decreases |ids|
  {
    if ids != [] {
      FinishMarking(MarkNodeUnhealthy(t, ids[0]), p, ids[1..], unhealthy);
    }
  }

  lemma {:induction false} FinishLosing(t: Tables, p: PassState, rows: seq<ContainerRecord>, nodes: seq<Id>)
    requires p.Busy?
    ensures Finish(Config(t, p.At(Losing(rows, nodes))))
         == Finish(Config(LoseRows(t, rows), p.At(Failing(nodes))))
    decreases |rows|
  {
    if rows != [] {
      FinishLosing(LoseRow(t, rows[0]), p, rows[1..], nodes);
    }
  }

  lemma {:induction false} FinishFailing(t: Tables, p: PassState, nodes: seq<Id>)
    requires p.Busy?
    ensures var u := HandleNodeFailures(t, nodes);
      Finish(Config(t, p.At(Failing(nodes)))) == Finish(Config(u, p.At(Scaling(u.containers, u.deployments))))
    decreases |nodes|
  {
    if nodes == [] {
      var c := Config(t, p.At(Listing(t.containers)));
      assert Finish(Config(t, p.At(Failing(nodes)))) == Finish(c) && Finish(c) == Finish(Advance(c));
    } else {
      var rows := Filter(t.containers, OnNode(nodes[0]));
      FinishLosing(t, p, rows, nodes[1..]);
      FinishFailing(LoseRows(t, rows), p, nodes[1..]);
    }
  }

  lemma PlaceKeepsRegistered(t: Tables, d: Deployment, n: Id, now: Time)
    ensures forall m :: Registered(Place(t, d, n, now), m) <==> Registered(t, m)
  {
    var u := CreateAssignment(t, n, Create, d.deploymentId, "", d.serviceName, d.work, now);
    forall m ensures Registered(Place(t, d, n, now), m) <==> Registered(t, m) {
      MapKeepsRegistered(u, Reserving(n, d.work.cpu, d.work.memory), m);
    }
  }

  lemma {:induction false} ScaleUpKeepsRegistered(t: Tables, d: Deployment, left: nat, now: Time)
    ensures forall m :: Registered(ScaleUp(t, d, left, now), m) <==> Registered(t, m)
    decreases left
  {
    hide Choose;
    if left != 0 && Choose(t, d.work).Placed? {
      var n := Choose(t, d.work).decision.node.nodeId;
      PlaceKeepsRegistered(t, d, n, now);
      ScaleUpKeepsRegistered(Place(t, d, n, now), d, left - 1, now);
    }
  }

  lemma {:induction false} StopAllKeepsRegistered(
    t: Tables, d: Deployment, victims: seq<ContainerRecord>, now: Time)
    ensures StopAll(t, d, victims, now).nodes == t.nodes
    decreases |victims|
  {
    if victims != [] {
      StopAllKeepsRegistered(StopOne(t, d, victims[0], now), d, victims[1..], now);
    }
  }

  lemma {:induction false} FinishPlacing(
    t: Tables, p: PassState, d: Deployment, left: nat, snapshot: seq<ContainerRecord>, todo: seq<Deployment>)
    requires p.Busy?
    ensures Finish(Config(t, p.At(Placing(d, left, snapshot, todo))))
         == Finish(Config(ScaleUp(t, d, left, p.now), p.At(Scaling(snapshot, todo))))
    decreases left
  {
    hide Choose, Place, Rank;
    var c := Config(t, p.At(Placing(d, left, snapshot, todo)));
    if left == 0 || !Choose(t, d.work).Placed? {
      assert Advance(c) == Config(t, p.At(Scaling(snapshot, todo)));
      assert ScaleUp(t, d, left, p.now) == t;
    } else {
      var u := Place(t, d, Choose(t, d.work).decision.node.nodeId, p.now);
      assert Advance(c) == Config(u, p.At(Placing(d, left - 1, snapshot, todo)));
      assert ScaleUp(t, d, left, p.now) == ScaleUp(u, d, left - 1, p.now);
      FinishPlacing(u, p, d, left - 1, snapshot, todo);
    }
    assert Finish(c) == Finish(Advance(c));
  }

  lemma {:induction false} FinishStopping(
    t: Tables, p: PassState, d: Deployment, victims: seq<ContainerRecord>,
    snapshot: seq<ContainerRecord>, todo: seq<Deployment>)
    requires p.Busy? && RowsRegistered(t, victims)
    ensures Finish(Config(t, p.At(Stopping(d, victims, snapshot, todo))))
         == Finish(Config(StopAll(t, d, victims, p.now), p.At(Scaling(snapshot, todo))))
    decreases |victims|
  {
    if victims != [] {
      assert victims[0] in victims;
      FinishStopping(StopOne(t, d, victims[0], p.now), p, d, victims[1..], snapshot, todo);
    }
  }

  /** One deployment's share of phase 3. */
  lemma FinishDeployment(t: Tables, p: PassState, snapshot: seq<ContainerRecord>, todo: seq<Deployment>)
    requires p.Busy? && RowsRegistered(t, snapshot) && todo != []
    ensures var u := ReconcileOne(t, todo[0], snapshot, p.now);
      && Finish(Config(t, p.At(Scaling(snapshot, todo)))) == Finish(Config(u, p.At(Scaling(snapshot, todo[1..]))))
      && RowsRegistered(u, snapshot)
  {
    hide Choose, ScaleUp, Victims, StopAll, Rank;
    var d := todo[0];
    var deficit := Deficit(t, d, snapshot);
    var c := Config(t, p.At(Scaling(snapshot, todo)));
    assert Finish(c) == Finish(Advance(c));
    if deficit > 0 {
      assert Advance(c) == Config(t, p.At(Placing(d, deficit, snapshot, todo[1..])));
      FinishPlacing(t, p, d, deficit, snapshot, todo[1..]);
      ScaleUpKeepsRegistered(t, d, deficit, p.now);
    } else if deficit < 0 {
      var running := Filter(snapshot, RunningOf(d.deploymentId));
      var victims := Victims(running, -deficit);
      assert Advance(c) == Config(t, p.At(Stopping(d, victims, snapshot, todo[1..])));
      VictimsAreRunning(running, -deficit);
      FinishStopping(t, p, d, victims, snapshot, todo[1..]);
      StopAllKeepsRegistered(t, d, victims, p.now);
    }
  }

  lemma {:induction false} FinishScaling(
    t: Tables, p: PassState, snapshot: seq<ContainerRecord>, todo: seq<Deployment>)
    requires p.Busy? && RowsRegistered(t, snapshot)
    ensures var u := ReconcileDeployments(t, todo, snapshot, p.now);
      && Finish(Config(t, p.At(Scaling(snapshot, todo)))) == Finish(Config(u, p.At(Reaping(snapshot, DeploymentIds(u)))))
      && RowsRegistered(u, snapshot)
    decreases |todo|
  {
    if todo == [] {
      var c := Config(t, p.At(Scaling(snapshot, todo)));
      assert Advance(c) == Config(t, p.At(Reaping(snapshot, DeploymentIds(t))));
      assert Finish(c) == Finish(Advance(c));
    } else {
      FinishDeployment(t, p, snapshot, todo);
      FinishScaling(ReconcileOne(t, todo[0], snapshot, p.now), p, snapshot, todo[1..]);
    }
  }

  lemma {:induction false} FinishReaping(t: Tables, p: PassState, rows: seq<ContainerRecord>, live: set<Id>)
    requires p.Busy? && RowsRegistered(t, rows)
    ensures Finish(Config(t, p.At(Reaping(rows, live))))
         == Maintain(CleanupOrphans(t, rows, live, p.now), p.tick, p.now)
    decreases |rows|
  {
    if rows != [] {
      assert rows[0] in rows;
      FinishReaping(CleanupOne(t, rows[0], live, p.now), p, rows[1..], live);
    }
  }

  lemma {:induction false} LoseRowsKeepsRegistered(t: Tables, rows: seq<ContainerRecord>)
    requires RowsRegistered(t, t.containers)
    ensures LoseRows(t, rows).nodes == t.nodes
    ensures RowsRegistered(LoseRows(t, rows), LoseRows(t, rows).containers)
    decreases |rows|
  {
    if rows != [] {
      var u := LoseRow(t, rows[0]);
      forall c | c in u.containers ensures Registered(u, c.nodeId) {
        var i :| 0 <= i < |u.containers| && u.containers[i] == c;
        assert t.containers[i] in t.containers && t.containers[i].nodeId == c.nodeId;
      }
      LoseRowsKeepsRegistered(u, rows[1..]);
    }
  }

  lemma {:induction false} FailuresKeepRegistered(t: Tables, nodes: seq<Id>)
    requires RowsRegistered(t, t.containers)
    ensures RowsRegistered(HandleNodeFailures(t, nodes), HandleNodeFailures(t, nodes).containers)
    decreases |nodes|
  {
    if nodes != [] {
      var rows := Filter(t.containers, OnNode(nodes[0]));
      LoseRowsKeepsRegistered(t, rows);
      FailuresKeepRegistered(LoseRows(t, rows), nodes[1..]);
    }
  }

  lemma {:induction false} MarkingKeepsRegistered(t: Tables, ids: seq<Id>)
    requires RowsRegistered(t, t.containers)
    ensures RowsRegistered(MarkUnhealthyAll(t, ids), MarkUnhealthyAll(t, ids).containers)
    decreases |ids|
  {
    if ids != [] {
      forall c | c in t.containers ensures Registered(MarkNodeUnhealthy(t, ids[0]), c.nodeId) {
        MapKeepsRegistered(t, MarkedUnhealthy(ids[0]), c.nodeId);
      }
      MarkingKeepsRegistered(MarkNodeUnhealthy(t, ids[0]), ids[1..]);
    }
  }

  /** The transactions of a pass, run without interruption, are the pass; none is refused. */
  lemma PassAloneIsPass(t: Tables, master: Id, now: Time, tick: nat)
    requires RowsRegistered(t, t.containers)
    ensures Finish(Begin(t, master, now, tick)) == Pass(t, master, now, tick)
  {
    var alive := KeepMasterAlive(t, master, now);
    forall c | c in t.containers ensures Registered(alive, c.nodeId) {
      MapKeepsRegistered(t, MasterBeating(master, now), c.nodeId);
    }
    var p := Begin(t, master, now, tick).pass;
    var ids := StaleNodes(alive, now);
    FinishMarking(alive, p, ids, ids);
    MarkingKeepsRegistered(alive, ids);
    FinishFailing(MarkUnhealthyAll(alive, ids), p, ids);
    FailuresKeepRegistered(MarkUnhealthyAll(alive, ids), ids);
    var t2 := AfterHealth(t, master, now);
    FinishScaling(t2, p, t2.containers, t2.deployments);
    var t3 := ReconcileDeployments(t2, t2.deployments, t2.containers, now);
    FinishReaping(t3, p, t2.containers, DeploymentIds(t3));
  }
}
