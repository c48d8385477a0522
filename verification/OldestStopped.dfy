/**
 A run from the first start in which a create that failed is still pending when the service is
 scaled down: the pending create counts as a replica that runs, and the only one that does run,
 the oldest, is the one to be stopped.
 */
module OldestStopped {
  import opened Seqs
  import opened Tables
  import opened Reconciliation
  import opened PassMachine
  import opened ClusterProtocol
  import opened Runs

  const OLDEST := Replica("a", 1.0)

  /** One create has succeeded and one has failed, and only one replica is wanted. */
  const ONE_FAILED := World(
    "", Tables([Node(50, 64, 3.0)], [Web(1)], [OLDEST], [Asked(0, true), Asked(1, false)], 2),
    Idle, [OLDEST], map["n" := AgentState([], [])], {Report("n", [OLDEST], 50, 64)}, {0}, {0})

  const STOP_OLDEST := Assignment(2, "n", Stop, "d", "a", "web", NO_WORKLOAD, 4.0, false)

  const OLDEST_STOPPED := ONE_FAILED.(
    t := ONE_FAILED.t.(assignments := [Asked(0, true), Asked(1, false), STOP_OLDEST], nextId := 3))

  /** Both are placed; both have been tried; what succeeded has been acknowledged. */
  const PLACED := START.(t := Filled(2))

  const TRIED := PLACED.(engines := [OLDEST], agents := map["n" := AgentState([], [0])], executed := {0})

  const ACKED := TRIED.(
    t := PLACED.t.(assignments := [Asked(0, true), Asked(1, false)]),
    agents := map["n" := AgentState([], [])], acks := {0})

  lemma {:induction false} SecondFails()
    ensures Reaches(TRIED.(agents := map["n" := AgentState([Asked(1, false)], [0])]), TRIED)
  {
    hide Reaches, Filled;
    var v := TRIED;
    var w := v.(agents := map["n" := AgentState([Asked(1, false)], [0])]);
    ReachesItself(w);
    var e := Execute("n", Failed, "b", 2.0);
    ReachesNext(w, w, e);
    assert [Asked(1, false)][1..] == [];
    assert Apply(w, e).agents == v.agents;
  }

  lemma {:induction false} UpToTheFailure()
    ensures Reaches(PLACED, TRIED)
  {
    hide Reaches, Filled;
    var w := PLACED;
    var polled := w.(agents := map["n" := AgentState([Asked(0, false), Asked(1, false)], [])]);
    BothPolled(w);
    assert [Asked(0, false)] + [Asked(1, false)] == [Asked(0, false), Asked(1, false)];
    OneExecuted(polled, 0, [Asked(1, false)], [], "a", 1.0);
    var one := w.(engines := [OLDEST], agents := map["n" := AgentState([Asked(1, false)], [0])], executed := {0});
    assert [] + [OLDEST] == [OLDEST] && [] + [0] == [0] && {} + {0} == {0};
    ReachesOn(w, polled, one);
    SecondFails();
    ReachesOn(w, one, TRIED);
  }

  lemma {:induction false} TheAcknowledgement()
    ensures Reaches(TRIED, ACKED)
  {
    hide Reaches;
    var w, v := TRIED, ACKED;
    ReachesItself(w);
    ReachesNext(w, w, SendAcks("n"));
    var sent := w.(acks := {0}, agents := map["n" := AgentState([], [])]);
    assert Apply(w, SendAcks("n")) == sent;
    ReachesNext(w, sent, DeliverAck(0));
    assert Apply(sent, DeliverAck(0)).t.assignments == v.t.assignments;
  }

  lemma OneReported()
    ensures UpdateHeartbeat(ACKED.t, "n", [OLDEST], 50, 64, 3.0) == ONE_FAILED.t.(deployments := [Web(2)])
    ensures Filter([OLDEST], OnNode("n")) == [OLDEST]
  {
    var t := ACKED.t;
    assert t.nodes[0].nodeId == "n" && Registered(t, "n");
    FilterAll([OLDEST], OnNode("n"));
    assert [OLDEST][1..] == [];
    assert Filter([], OtherContainer("a")) + [OLDEST] == [OLDEST];
    assert InsertReported([], [OLDEST], "n") == InsertReported([OLDEST], [], "n");
  }

  lemma {:induction false} TheReportAndTheScaling()
    ensures Reaches(ACKED, ONE_FAILED)
  {
    hide Reaches;
    var w := ACKED;
    ReachesItself(w);
    OneReported();
    hide Filter, UpdateHeartbeat, Filled;
    var r := Report("n", [OLDEST], 50, 64);
    ReachesNext(w, w, SendReport("n", 50, 64));
    var sent := w.(reports := {r});
    assert Apply(w, SendReport("n", 50, 64)) == sent;
    ReachesNext(w, sent, DeliverReport(r, 3.0));
    var shown := ONE_FAILED.(t := ONE_FAILED.t.(deployments := [Web(2)]));
    assert Apply(sent, DeliverReport(r, 3.0)) == shown;
    ReachesNext(w, shown, Rescale("web", 1));
    assert Apply(shown, Rescale("web", 1)).t.deployments == [Web(1)];
  }

  // ---- The pass that stops it ------------------------------------------------

  lemma OneTooFew()
    ensures Deficit(ONE_FAILED.t, Web(1), [OLDEST]) == -1
    ensures Filter([OLDEST], RunningOf("d")) == [OLDEST]
  {
    var t := ONE_FAILED.t;
    assert [Asked(0, true), Asked(1, false)][..1] == [Asked(0, true)];
    assert PendingCreateOf("d")(Asked(1, false)) && !PendingCreateOf("d")(Asked(0, true));
    assert Count([Asked(0, true)], PendingCreateOf("d")) == 0;
    assert RunningOf("d")(OLDEST);
    FilterAll([OLDEST], RunningOf("d"));
    assert Count([OLDEST], RunningOf("d")) == 1;
  }

  lemma OnlyOneToChoose()
    ensures Victims([OLDEST], 1) == [OLDEST]
  {
    SortDescSorts([OLDEST], StartedAtOf());
    var sorted := SortDesc([OLDEST], StartedAtOf());
    assert |sorted| == 1 && sorted[0] in multiset(sorted);
  }

  lemma {:induction false} TheStop()
    ensures ReconcileDeployments(ONE_FAILED.t, [Web(1)], [OLDEST], 4.0) == OLDEST_STOPPED.t
  {
    var t := ONE_FAILED.t;
    OneTooFew();
    OnlyOneToChoose();
    assert t.nodes[0].nodeId == "n" && Registered(t, "n");
    var u := StopOne(t, Web(1), OLDEST, 4.0);
    assert u.assignments == OLDEST_STOPPED.t.assignments;
    hide Victims, Deficit, StopOne, Filter;
    assert [OLDEST][1..] == [];
    assert StopAll(t, Web(1), [OLDEST], 4.0) == u;
    assert [Web(1)][1..] == [];
    assert ReconcileDeployments(u, [], [OLDEST], 4.0) == u;
  }

  lemma StillHealthy()
    ensures AfterHealth(ONE_FAILED.t, "", 4.0) == ONE_FAILED.t
  {
    var t := ONE_FAILED.t;
    assert !StaleBefore(4.0 - NODE_TIMEOUT)(t.nodes[0]);
    CountNone(t.nodes, StaleBefore(4.0 - NODE_TIMEOUT));
    assert StaleNodes(t, 4.0) == [];
  }

  lemma NoOrphan(t: Tables, live: set<Id>)
    ensures "d" in live ==> Maintain(CleanupOrphans(t, [OLDEST], live, 4.0), 1, 4.0) == t
  {
    assert ("d" in live ==> !Orphan(OLDEST, live)) && [OLDEST][1..] == [];
    assert CleanupOrphans(t, [], live, 4.0) == t;
  }

  lemma {:induction false} ThePass()
    ensures Pass(ONE_FAILED.t, "", 4.0, 1) == OLDEST_STOPPED.t
  {
    StillHealthy();
    TheStop();
    var u := OLDEST_STOPPED.t;
    assert "d" in DeploymentIds(u) by { assert u.deployments[0].deploymentId == "d"; }
    NoOrphan(u, DeploymentIds(u));
    hide AfterHealth, ReconcileDeployments, CleanupOrphans, Maintain, DeploymentIds;
  }

  /**
   From the first start a run leads to a service with one replica wanted and one running, and the
   pass after it asks for that one, the oldest, to be stopped: one create is still pending.
   */
  lemma {:induction false} OldestCanBeStopped()
    ensures Initial(START) && Reaches(START, ONE_FAILED) && Reaches(ONE_FAILED, OLDEST_STOPPED)
    ensures var w := ONE_FAILED;
      (Filter(w.engines, RunningOf("d")), Deficit(w.t, Web(1), w.t.containers), Pass(w.t, "", 4.0, 1))
      == ([OLDEST], -1, OLDEST_STOPPED.t)
  {
    hide Reaches, Filled;
    UpToTheFirstPass(PLACED);
    UpToTheFailure();
    ReachesOn(START, PLACED, TRIED);
    TheAcknowledgement();
    ReachesOn(START, TRIED, ACKED);
    TheReportAndTheScaling();
    ReachesOn(START, ACKED, ONE_FAILED);
    OneTooFew();
    ThePass();
    assert RowsRegistered(ONE_FAILED.t, ONE_FAILED.t.containers) by {
      assert ONE_FAILED.t.nodes[0].nodeId == "n";
    }
    PassIsARun(ONE_FAILED, 4.0, 1);
    hide Pass, Deficit, Filter;
  }
}
