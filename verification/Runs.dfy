/**
 Runs from the first start: a pass is a run of the machine, and one concrete run leads to
 a cluster with two replicas of a service that now asks for one.
 */
module Runs {
  import opened Seqs
  import opened Tables
  import opened Scheduling
  import opened Reconciliation
  import opened PassMachine
  import opened ClusterProtocol

  // ---- A pass is a run -----------------------------------------------------

  lemma {:induction false} AdvancesAreARun(w: World)
    ensures Reaches(w, w.(t := Finish(Config(w.t, w.pass)), pass := Idle))
    decreases Rank(w.pass).0, Rank(w.pass).1, Rank(w.pass).2, Rank(w.pass).3
  {
    hide Rank, Advance, Reaches;
    ReachesItself(w);
    if w.pass.Busy? {
      var u := Apply(w, AdvancePass);
      AdvanceDescends(Config(w.t, w.pass));
      ReachesNext(w, w, AdvancePass);
      AdvancesAreARun(u);
      ReachesOn(w, u, w.(t := Finish(Config(w.t, w.pass)), pass := Idle));
    }
  }

  /** The pass of the reconciler is what the machine can do with nothing in between. */
  lemma PassIsARun(w: World, now: Time, tick: nat)
    requires w.pass.Idle? && RowsRegistered(w.t, w.t.containers)
    ensures Reaches(w, w.(t := Pass(w.t, w.master, now, tick)))
  {
    var u := Apply(w, BeginPass(now, tick));
    ReachesItself(w);
    ReachesNext(w, w, BeginPass(now, tick));
    AdvancesAreARun(u);
    PassAloneIsPass(w.t, w.master, now, tick);
    hide Pass, Finish, Begin, Reaches;
    ReachesOn(w, u, w.(t := Pass(w.t, w.master, now, tick)));
  }

  // ---- One worker, two replicas --------------------------------------------

  const START := World("", EMPTY, Idle, [], map[], {}, {}, {})

  function Node(cpuUsed: int, memoryUsed: int, at: Time): NodeInfo {
    NodeInfo("n", "", Worker, Healthy, 100, cpuUsed, 1024, memoryUsed, at)
  }

  function Web(replicas: int): Deployment { Deployment("d", "web", replicas, NO_WORKLOAD) }

  function Asked(id: nat, acknowledged: bool): Assignment {
    Assignment(id, "n", Create, "d", "", "web", NO_WORKLOAD, 0.0, acknowledged)
  }

  function Replica(id: Id, at: Time): ContainerRecord {
    ContainerRecord(id, "n", "d", ContainerName("web", id), Running, at)
  }

  const BOTH := [Replica("a", 1.0), Replica("b", 2.0)]

  const SHOWN := Report("n", BOTH, 100, 128)

  function Placed(nodes: seq<NodeInfo>, n: nat): Tables {
    Tables(nodes, [Web(2)], [], seq(n, i requires 0 <= i < n => Asked(i, false)), n)
  }

  /** Two replicas asked for, placed, polled, started, acknowledged and reported. */
  const TWO_RUNNING := World(
    "", Tables([Node(100, 128, 3.0)], [Web(2)], BOTH, [Asked(0, true), Asked(1, true)], 2),
    Idle, BOTH, map["n" := AgentState([], [])], {SHOWN}, {0, 1}, {0, 1})

  /** And then only one wanted. */
  const ONE_TOO_MANY := TWO_RUNNING.(t := TWO_RUNNING.t.(deployments := [Web(1)]))

  lemma OnlyWorker(t: Tables, x: NodeInfo, work: Workload)
    requires t.nodes == [x] && x.status.Healthy? && Fits(work)(x)
    ensures Choose(t, work).Placed? && Choose(t, work).decision.node == x
  {
    hide Choose, Score, Eligible;
    assert x in t.nodes;
    RefusedIffNoRoom(t, work);
    ChoiceIsBest(t, work);
  }

  /** The tables with the first `n` creates placed. */
  function Filled(n: nat): Tables { Placed([Node(50 * n, 64 * n, 0.0)], n) }

  lemma NextPlaced(n: nat)
    ensures Place(Filled(n), Web(2), "n", 0.0) == Filled(n + 1)
  {
    var t := Filled(n);
    assert t.nodes[0].nodeId == "n" && Registered(t, "n");
    var u := CreateAssignment(t, "n", Create, "d", "", "web", NO_WORKLOAD, 0.0);
    assert u.assignments == Filled(n + 1).assignments;
    assert Map(t.nodes, Reserving("n", 50, 64)) == Filled(n + 1).nodes;
  }

  lemma {:induction false} RoomForNext(n: nat)
    requires n < 2
    ensures Choose(Filled(n), NO_WORKLOAD).Placed?
    ensures Choose(Filled(n), NO_WORKLOAD).decision.node.nodeId == "n"
  {
    OnlyWorker(Filled(n), Node(50 * n, 64 * n, 0.0), NO_WORKLOAD);
  }

  lemma {:induction false} BothPlaced()
    ensures ScaleUp(Filled(0), Web(2), 2, 0.0) == Filled(2)
  {
    RoomForNext(0);
    RoomForNext(1);
    NextPlaced(0);
    NextPlaced(1);
    hide Choose, Place, Filled;
    assert ScaleUp(Filled(1), Web(2), 1, 0.0) == ScaleUp(Filled(2), Web(2), 0, 0.0);
    assert ScaleUp(Filled(0), Web(2), 2, 0.0) == ScaleUp(Filled(1), Web(2), 1, 0.0);
  }

  lemma NothingStale()
    ensures AfterHealth(Filled(0), "", 0.0) == Filled(0)
  {
    var t := Filled(0);
    assert !StaleBefore(0.0 - NODE_TIMEOUT)(t.nodes[0]);
    CountNone(t.nodes, StaleBefore(0.0 - NODE_TIMEOUT));
    assert StaleNodes(t, 0.0) == [];
  }

  lemma {:induction false} TwoMissing()
    ensures ReconcileOne(Filled(0), Web(2), [], 0.0) == ScaleUp(Filled(0), Web(2), 2, 0.0)
  {
    hide ScaleUp;
    assert Deficit(Filled(0), Web(2), []) == 2;
  }

  lemma {:induction false} FirstScaling()
    ensures ReconcileDeployments(Filled(0), [Web(2)], [], 0.0) == Filled(2)
  {
    TwoMissing();
    BothPlaced();
    hide ScaleUp, ReconcileOne, Filled;
    assert [Web(2)][1..] == [];
    assert ReconcileDeployments(Filled(2), [], [], 0.0) == Filled(2);
  }

  lemma NothingToClean(t: Tables, live: set<Id>)
    ensures Maintain(CleanupOrphans(t, [], live, 0.0), 1, 0.0) == t
  {
  }

  /** The first pass. */
  lemma {:induction false} FirstPass()
    ensures Pass(Filled(0), "", 0.0, 1) == Filled(2)
  {
    NothingStale();
    FirstScaling();
    NothingToClean(Filled(2), DeploymentIds(Filled(2)));
    assert Filled(0).deployments == [Web(2)] && Filled(0).containers == [];
    hide AfterHealth, ReconcileDeployments, CleanupOrphans, Maintain, Filled, DeploymentIds;
  }

  lemma {:induction false} UpToTheFirstPass(w: World)
    requires w == START.(t := Filled(2))
    ensures Reaches(START, w)
  {
    hide Reaches, Pass;
    var joined := Apply(START, Join("n", "", 100, 1024, 0.0));
    ReachesItself(START);
    ReachesNext(START, START, Join("n", "", 100, 1024, 0.0));
    assert joined == START.(t := EMPTY.(nodes := [Node(0, 0, 0.0)]));
    ReachesNext(START, joined, Deploy(Web(2)));
    var deployed := Apply(joined, Deploy(Web(2)));
    assert deployed == START.(t := Filled(0));
    PassIsARun(deployed, 0.0, 1);
    FirstPass();
    ReachesOn(START, deployed, w);
  }

  lemma {:induction false} BothPolled(w: World)
    requires w == START.(t := Filled(2))
    ensures Reaches(w, w.(agents := map["n" := AgentState([Asked(0, false), Asked(1, false)], [])]))
  {
    hide Reaches;
    var batch := [Asked(0, false), Asked(1, false)];
    ReachesItself(w);
    assert Registered(w.t, "n") by { assert w.t.nodes[0].nodeId == "n"; }
    assert w.t.assignments == batch;
    PendingBoth(batch);
    ReachesNext(w, w, Poll("n"));
  }

  /** One create executed. */
  lemma OneExecuted(w: World, id: nat, rest: seq<Assignment>, done: seq<nat>, name: Id, now: Time)
    requires w.agents == map["n" := AgentState([Asked(id, false)] + rest, done)]
    requires forall c :: c in w.engines ==> c.containerId != name
    ensures Reaches(w, w.(engines := w.engines + [Replica(name, now)],
                          agents := map["n" := AgentState(rest, done + [id])], executed := w.executed + {id}))
  {
    hide Reaches;
    var e := Execute("n", Done, name, now);
    ReachesItself(w);
    ReachesNext(w, w, e);
    var v := Apply(w, e);
    assert ([Asked(id, false)] + rest)[1..] == rest;
    assert v.agents == map["n" := AgentState(rest, done + [id])];
  }

  lemma {:induction false} UpToTheExecution(w: World, v: World)
    requires w == START.(t := Filled(2))
    requires v == w.(engines := BOTH, agents := map["n" := AgentState([], [0, 1])], executed := {0, 1})
    ensures Reaches(w, v)
  {
    hide Reaches;
    var polled := w.(agents := map["n" := AgentState([Asked(0, false), Asked(1, false)], [])]);
    BothPolled(w);
    assert [Asked(0, false)] + [Asked(1, false)] == [Asked(0, false), Asked(1, false)];
    OneExecuted(polled, 0, [Asked(1, false)], [], "a", 1.0);
    var one := w.(engines := [Replica("a", 1.0)], agents := map["n" := AgentState([Asked(1, false)], [0])], executed := {0});
    assert [] + [Replica("a", 1.0)] == [Replica("a", 1.0)] && [] + [0] == [0] && {} + {0} == {0};
    ReachesOn(w, polled, one);
    assert [Asked(1, false)] + [] == [Asked(1, false)];
    OneExecuted(one, 1, [], [0], "b", 2.0);
    assert [Replica("a", 1.0)] + [Replica("b", 2.0)] == BOTH && [0] + [1] == [0, 1] && {0} + {1} == {0, 1};
    ReachesOn(w, one, v);
  }

  lemma PendingBoth(batch: seq<Assignment>)
    requires batch == [Asked(0, false), Asked(1, false)]
    ensures Filter(batch, PendingOn("n")) == batch
  {
    FilterAll(batch, PendingOn("n"));
  }

  lemma UpToTheReport(w: World)
    requires w == START.(t := Filled(2), engines := BOTH,
                         agents := map["n" := AgentState([], [0, 1])], executed := {0, 1})
    ensures Reaches(w, TWO_RUNNING)
  {
    hide Reaches;
    ReachesItself(w);
    ReachesNext(w, w, SendAcks("n"));
    var acks := w.(acks := {0, 1}, agents := map["n" := AgentState([], [])]);
    assert Apply(w, SendAcks("n")) == acks;
    ReachesNext(w, acks, DeliverAck(0));
    var one := acks.(t := w.t.(assignments := [Asked(0, true), Asked(1, false)]));
    assert Apply(acks, DeliverAck(0)) == one;
    ReachesNext(w, one, DeliverAck(1));
    var two := acks.(t := w.t.(assignments := [Asked(0, true), Asked(1, true)]));
    assert Apply(one, DeliverAck(1)) == two;
    TheReport(two);
    ReachesOn(w, two, TWO_RUNNING);
  }

  lemma TheReport(w: World)
    requires w == TWO_RUNNING.(t := Filled(2).(assignments := [Asked(0, true), Asked(1, true)]), reports := {})
    ensures Reaches(w, TWO_RUNNING)
  {
    hide Reaches;
    ReachesItself(w);
    BothOnNode();
    BothReported(w.t);
    hide Filter, UpdateHeartbeat, Filled;
    ReachesNext(w, w, SendReport("n", 100, 128));
    var sent := w.(reports := {SHOWN});
    assert Apply(w, SendReport("n", 100, 128)) == sent;
    ReachesNext(w, sent, DeliverReport(SHOWN, 3.0));
    assert Apply(sent, DeliverReport(SHOWN, 3.0)) == TWO_RUNNING;
  }

  lemma BothOnNode()
    ensures Filter(BOTH, OnNode("n")) == BOTH
  {
    FilterAll(BOTH, OnNode("n"));
  }

  lemma BothReported(t: Tables)
    requires t == Filled(2).(assignments := [Asked(0, true), Asked(1, true)])
    ensures UpdateHeartbeat(t, "n", BOTH, 100, 128, 3.0) == TWO_RUNNING.t
  {
    assert t.nodes[0].nodeId == "n" && Registered(t, "n");
    var a, b := BOTH[0], BOTH[1];
    assert BOTH[1..] == [b] && [b][1..] == [];
    var mid := Filter([], OtherContainer("a")) + [a];
    assert mid == [a];
    assert OtherContainer("b")(a) && Filter([a], OtherContainer("b")) == [a] by {
      FilterAll([a], OtherContainer("b"));
    }
    assert InsertReported([], BOTH, "n") == InsertReported([a], [b], "n");
    assert InsertReported([a], [b], "n") == InsertReported([a, b], [], "n") by {
      assert [a] + [b] == [a, b];
    }
  }

  /** From the very first start a run leads to two replicas reported. */
  lemma TwoReplicasCanRun()
    ensures Initial(START) && Reaches(START, TWO_RUNNING)
  {
    hide Reaches;
    var placed := START.(t := Filled(2));
    var executed := placed.(engines := BOTH, agents := map["n" := AgentState([], [0, 1])], executed := {0, 1});
    UpToTheFirstPass(placed);
    UpToTheExecution(placed, executed);
    ReachesOn(START, placed, executed);
    UpToTheReport(executed);
    ReachesOn(START, executed, TWO_RUNNING);
  }

  /** And to two replicas of a service that now asks for one. */
  lemma OneTooManyCanRun()
    ensures Initial(START) && Reaches(START, ONE_TOO_MANY)
  {
    hide Reaches;
    TwoReplicasCanRun();
    ReachesNext(START, TWO_RUNNING, Rescale("web", 1));
    assert Apply(TWO_RUNNING, Rescale("web", 1)) == ONE_TOO_MANY;
  }
}
