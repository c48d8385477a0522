/**
 A pass that dies between marking a node unhealthy and marking its containers lost: a run
 from the first start that shows it, and how long the containers stay marked as running.
 */
module Stranded {
  import opened Seqs
  import opened Tables
  import opened StateStore
  import opened Reconciliation
  import opened PassMachine
  import opened ClusterProtocol
  import opened Runs
  import opened RunningOnHealthy
  import PassIdempotence
  import Scheduling

  // ---- A run that strands two containers -----------------------------------

  /** The node has been silent, a pass has marked it, and died. */
  const LEFT_MARKED := TWO_RUNNING.(t := MarkNodeUnhealthy(TWO_RUNNING.t, "n"))

  lemma TheNodeIsStale()
    ensures StaleNodes(TWO_RUNNING.t, 100.0) == ["n"]
  {
    var nodes := TWO_RUNNING.t.nodes;
    FilterAll(nodes, StaleBefore(100.0 - NODE_TIMEOUT));
    assert Filter(nodes, StaleBefore(100.0 - NODE_TIMEOUT)) == nodes;
  }

  lemma {:induction false} ThePassDies()
    ensures Reaches(TWO_RUNNING, LEFT_MARKED)
  {
    hide Reaches;
    var w := TWO_RUNNING;
    TheNodeIsStale();
    hide StaleNodes;
    ReachesItself(w);
    ReachesNext(w, w, BeginPass(100.0, 2));
    var begun := w.(pass := Busy(100.0, 2, Marking(["n"], ["n"])));
    assert Apply(w, BeginPass(100.0, 2)) == begun;
    ReachesNext(w, begun, AdvancePass);
    var marked := LEFT_MARKED.(pass := Busy(100.0, 2, Marking([], ["n"])));
    assert ["n"][1..] == [];
    assert Apply(begun, AdvancePass) == marked;
    ReachesNext(w, marked, AbortPass);
    assert Apply(marked, AbortPass) == LEFT_MARKED;
  }

  /** A run from the first start after which, between passes, running containers are on an unhealthy node. */
  lemma {:induction false} EarlyAbortBreaksIt()
    ensures Initial(START) && Reaches(START, LEFT_MARKED)
    ensures LEFT_MARKED.pass.Idle? && LEFT_MARKED.t.containers == BOTH
    ensures forall c :: c in BOTH ==> c.IsActive() && !RegisteredHealthy(LEFT_MARKED.t, c.nodeId)
  {
    hide Reaches;
    TwoReplicasCanRun();
    ThePassDies();
    ReachesOn(START, TWO_RUNNING, LEFT_MARKED);
    assert LEFT_MARKED.t.nodes == [Node(100, 128, 3.0).(status := Unhealthy)];
  }

  // ---- How long it lasts ---------------------------------------------------

  /** The node of `c` gives no sign, and no other node reports a container of this id. */
  ghost function Unheard(c: ContainerRecord): (World, Event) -> bool {
    (w: World, e: Event) =>
      match e
      case Leave(n) => n != c.nodeId
      case Join(n, _, _, _, _) => n != c.nodeId
      case DeliverReport(r, _) => r.node != c.nodeId && forall x :: x in r.rows ==> x.containerId != c.containerId
      case _ => true
  }

  /** On a node that is not healthy and on no pass's list. */
  ghost function Stuck(c: ContainerRecord): World -> bool {
    (w: World) =>
      && c in w.t.containers && DistinctBy(w.t.containers, ContainerIdOf())
      && !RegisteredHealthy(w.t, c.nodeId)
      && c.nodeId !in Listed(w.pass)
      && (Early(w.pass) && w.pass.stage.Losing? ==>
            forall r :: r in w.pass.stage.rows ==> r.containerId != c.containerId)
  }

  lemma MapKeepsIll(t: Tables, f: NodeInfo -> NodeInfo, n: Id)
    requires forall x :: x in t.nodes ==> f(x).nodeId == x.nodeId
    requires forall x :: x in t.nodes && x.nodeId == n && f(x).status.Healthy? ==> x.status.Healthy?
    requires !RegisteredHealthy(t, n)
    ensures !RegisteredHealthy(t.(nodes := Map(t.nodes, f)), n)
  {
    var u := t.(nodes := Map(t.nodes, f));
    forall i | 0 <= i < |u.nodes| && u.nodes[i].nodeId == n ensures !u.nodes[i].status.Healthy? {
      assert t.nodes[i] in t.nodes && u.nodes[i] == f(t.nodes[i]);
    }
  }

  lemma {:induction false} BeginKeepsStuck(w: World, c: ContainerRecord, now: Time, tick: nat)
    requires Stuck(c)(w) && w.pass.Idle?
    ensures Stuck(c)(Apply(w, BeginPass(now, tick)))
  {
    var v := Apply(w, BeginPass(now, tick));
    MapKeepsIll(w.t, MasterBeating(w.master, now), c.nodeId);
    hide StaleNodes;
    if c.nodeId in v.pass.stage.unhealthy {
      StaleAreHealthy(v.t, now, c.nodeId);
    }
  }

  lemma LoseKeeps(t: Tables, r: ContainerRecord, c: ContainerRecord)
    requires c in t.containers && DistinctBy(t.containers, ContainerIdOf()) && r.containerId != c.containerId
    ensures c in LoseRow(t, r).containers && DistinctBy(LoseRow(t, r).containers, ContainerIdOf())
  {
    var u := LoseRow(t, r);
    var i :| 0 <= i < |t.containers| && t.containers[i] == c;
    assert u.containers[i] == c;
    forall j, k | 0 <= j < k < |u.containers| ensures ContainerIdOf()(u.containers[j]) != ContainerIdOf()(u.containers[k]) {
      assert ContainerIdOf()(t.containers[j]) != ContainerIdOf()(t.containers[k]);
    }
  }

  lemma {:induction false} EarlyKeepsStuck(w: World, c: ContainerRecord)
    requires Stuck(c)(w) && Early(w.pass)
    ensures Stuck(c)(Apply(w, AdvancePass))
  {
    var t, p := w.t, w.pass;
    var v := Apply(w, AdvancePass);
    match p.stage
    case Marking(ids, _) =>
      if ids != [] {
        MapKeepsIll(t, MarkedUnhealthy(ids[0]), c.nodeId);
      }
    case Failing(nodes) =>
      if nodes != [] {
        forall r | r in Filter(t.containers, OnNode(nodes[0]))
          ensures r.containerId != c.containerId && r.nodeId != c.nodeId
        {
          assert OnNode(nodes[0])(r) && nodes[0] in nodes;
          if r.containerId == c.containerId {
            PassIdempotence.SameIdSameRow(t.containers, r, c);
          }
        }
      }
    case Losing(rows, nodes) =>
      if rows != [] {
        assert rows[0] in rows && forall r :: r in rows[1..] ==> r in rows;
        LoseKeeps(t, rows[0], c);
        SameNodes(t, v.t);
      }
  }

  lemma {:induction false} LateKeepsStuck(w: World, c: ContainerRecord)
    requires Stuck(c)(w) && w.pass.Busy? && !Early(w.pass)
    ensures Stuck(c)(Apply(w, AdvancePass))
  {
    hide Scheduling.Choose, HasPendingStop, Victims, Registered;
    var t, p := w.t, w.pass;
    var v := Apply(w, AdvancePass);
    if p.stage.Placing? && p.stage.left != 0 && Scheduling.Choose(t, p.stage.d.work).Placed? {
      var d := p.stage.d;
      var n := Scheduling.Choose(t, d.work).decision.node.nodeId;
      var u := CreateAssignment(t, n, Create, d.deploymentId, "", d.serviceName, d.work, p.now);
      MapKeepsIll(u, Reserving(n, d.work.cpu, d.work.memory), c.nodeId);
    } else {
      assert v.t.nodes == t.nodes;
    }
  }

  lemma {:induction false} ReportKeepsStuck(w: World, c: ContainerRecord, r: Report, now: Time)
    requires Stuck(c)(w) && r in w.reports && Unheard(c)(w, DeliverReport(r, now))
    ensures Stuck(c)(Apply(w, DeliverReport(r, now)))
  {
    var t, n := w.t, r.node;
    if Registered(t, n) {
      var cs := Filter(t.containers, NotOnNode(n));
      assert NotOnNode(n)(c) && c in cs;
      InsertReportedKeeps(cs, r.rows, n, c);
      FilterDistinct(t.containers, NotOnNode(n), ContainerIdOf());
      InsertReportedDistinct(cs, r.rows, n);
      MapKeepsIll(t, Beating(n, r.cpu, r.memory, now), c.nodeId);
      SameNodes(t.(nodes := Map(t.nodes, Beating(n, r.cpu, r.memory, now))), Apply(w, DeliverReport(r, now)).t);
    }
  }

  lemma {:induction false} StuckStep(w: World, c: ContainerRecord, e: Event)
    requires Stuck(c)(w) && Enabled(w, e) && Unheard(c)(w, e)
    ensures Stuck(c)(Apply(w, e))
  {
    hide Stuck, Advance, Begin, UpdateHeartbeat;
    match e
    case BeginPass(now, tick) => BeginKeepsStuck(w, c, now, tick);
    case AdvancePass => if Early(w.pass) { EarlyKeepsStuck(w, c); } else { LateKeepsStuck(w, c); }
    case DeliverReport(r, now) => ReportKeepsStuck(w, c, r, now);
    case _ => OtherKeepsStuck(w, c, e);
  }

  lemma {:induction false} OtherKeepsStuck(w: World, c: ContainerRecord, e: Event)
    requires Stuck(c)(w) && Enabled(w, e) && Unheard(c)(w, e)
    requires !e.BeginPass? && !e.AdvancePass? && !e.DeliverReport?
    ensures Stuck(c)(Apply(w, e))
  {
    var v := Apply(w, e);
    if e.Leave? {
      assert NotOnNode(e.node)(c);
      FilterDistinct(w.t.containers, NotOnNode(e.node), ContainerIdOf());
      LeaveLeavesOthers(w.t, e.node, c.nodeId);
    } else if e.Join? {
      JoinLeavesOthers(w.t, e.node, e.address, e.cpu, e.memory, e.now, c.nodeId);
    } else {
      SameNodes(w.t, v.t);
    }
  }

  /**
   In every run, through any number of passes, a container on a node that is not healthy and
   that no pass has on its list keeps its row as it is, until the node is heard of again.
   */
  lemma {:induction false} StrandedUntilHeard(w: World, es: seq<Event>, c: ContainerRecord)
    requires Valid(w.t) && c in w.t.containers && !RegisteredHealthy(w.t, c.nodeId) && !Early(w.pass)
    requires Legal(w, es, Unheard(c))
    ensures c in Play(w, es, Unheard(c)).t.containers
    ensures !RegisteredHealthy(Play(w, es, Unheard(c)).t, c.nodeId)
  {
    hide Apply, Enabled, Unheard;
    assert Stuck(c)(w);
    forall v: World, e: Event | Stuck(c)(v) && Enabled(v, e) && Unheard(c)(v, e) ensures Stuck(c)(Apply(v, e)) {
      StuckStep(v, c, e);
    }
    RunInduction(w, es, Unheard(c), Stuck(c));
    assert Stuck(c)(Play(w, es, Unheard(c)));
  }

  /** The next report of a registered node ends it: the node is healthy again. */
  lemma ReportEndsIt(w: World, r: Report, now: Time)
    requires r in w.reports && Registered(w.t, r.node)
    ensures RegisteredHealthy(Apply(w, DeliverReport(r, now)).t, r.node)
  {
    ReportHeals(w.t, r.node, r.rows, r.cpu, r.memory, now);
  }
}
