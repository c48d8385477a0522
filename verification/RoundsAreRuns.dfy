/**
 The rounds of the convergence theorems are runs of the protocol: passes, polls,
 executions, acknowledgements and reports, in an order the machine permits.
 */
module RoundsAreRuns {
  import opened Seqs
  import opened Tables
  import opened StateStore
  import opened Reconciliation
  import opened PassMachine
  import opened ClusterProtocol
  import opened Runs
  import opened AgentRound
  import opened PassIdempotence
  import opened Convergence
  import opened Agents

  /** The world holds these tables and engines, with no pass under way. */
  predicate Holds(w: World, c: Cluster) { w.t == c.t && w.engines == c.engines && w.pass.Idle? }

  /** Some run leads from `w` to a world that holds `c`. */
  ghost predicate LeadsTo(w: World, c: Cluster) {
    exists v :: Reaches(w, v) && Holds(v, c) && v.master == w.master
  }

  lemma LeadsOn(w: World, u: World, c: Cluster)
    requires Reaches(w, u) && u.master == w.master && LeadsTo(u, c)
    ensures LeadsTo(w, c)
  {
    var v :| Reaches(u, v) && Holds(v, c) && v.master == u.master;
    ReachesOn(w, u, v);
  }

  // ---- Working -------------------------------------------------------------

  /** Names for a batch: the creates' own, and unused ones for the stops. */
  function BatchNames(batch: seq<Assignment>, name: nat -> Id, unused: nat): (r: seq<Id>)
    ensures Named(batch, r, name) && |r| == |batch|
  {
    seq(|batch|, i requires 0 <= i < |batch| =>
      if batch[i].action.Create? then name(batch[i].assignmentId) else name(unused + i))
  }

  lemma BatchNamesAreUnused(c: Cluster, batch: seq<Assignment>, name: nat -> Id)
    requires Injective(name) && Tidy(c, name) && Batch(c.t, batch)
    ensures NamesUnused(c.engines, BatchNames(batch, name, c.t.nextId))
  {
    var names := BatchNames(batch, name, c.t.nextId);
    assert forall i :: 0 <= i < |batch| ==> batch[i] in batch;
    forall i, j | 0 <= i < j < |batch| ensures names[i] != names[j] {
      assert AssignmentIdOf()(batch[i]) != AssignmentIdOf()(batch[j]);
      assert batch[i].assignmentId < c.t.nextId && batch[j].assignmentId < c.t.nextId;
    }
  }

  lemma {:induction false} AcksAreARun(w: World, batch: seq<Assignment>)
    requires forall a :: a in batch ==> a.assignmentId in w.acks
    ensures Reaches(w, w.(t := AckAll(w.t, batch)))
    decreases |batch|
  {
    hide Reaches;
    ReachesItself(w);
    if batch != [] {
      var u := Apply(w, DeliverAck(batch[0].assignmentId));
      assert batch[0] in batch && forall a :: a in batch[1..] ==> a in batch;
      ReachesNext(w, w, DeliverAck(batch[0].assignmentId));
      AcksAreARun(u, batch[1..]);
      ReachesOn(w, u, w.(t := AckAll(w.t, batch)));
    }
  }

  /** The batch executed, and the ids collected. */
  ghost predicate Executed(v: World, w: World, n: Id, c: Cluster, ids: seq<nat>) {
    Holds(v, c) && v.master == w.master && n in v.agents && v.agents[n] == AgentState([], ids)
  }

  lemma ExecutionsAreARun(w: World, c: Cluster, n: Id, batch: seq<Assignment>, name: nat -> Id, now: Time)
    requires Holds(w, c) && Injective(name) && Tidy(c, name) && Batch(c.t, batch)
    requires n in w.agents && w.agents[n] == AgentState(batch, [])
    ensures var ran := Cluster(c.t, RunBatch(c.engines, n, batch, name, now));
      exists v :: Reaches(w, v) && Executed(v, w, n, ran, Map(batch, AssignmentIdOf()))
  {
    hide Executions, RunOutcomes, RunBatch, CompletedIds;
    var names := BatchNames(batch, name, c.t.nextId);
    BatchNamesAreUnused(c, batch, name);
    CycleIsARun(w, n, AllSucceed(|batch|), names, now, n);
    RoundBatchIsAgentBatch(c.engines, n, batch, names, name, now);
    var es := Executions(n, AllSucceed(|batch|), names, now);
    var v := Play(w, es, Anything());
    assert [] + Map(batch, AssignmentIdOf()) == Map(batch, AssignmentIdOf());
    assert Reaches(w, v);
  }

  lemma IdsAreAcked(batch: seq<Assignment>, acks: set<nat>)
    requires forall id :: id in Map(batch, AssignmentIdOf()) ==> id in acks
    ensures forall a :: a in batch ==> a.assignmentId in acks
  {
    forall a | a in batch ensures a.assignmentId in acks {
      var i :| 0 <= i < |batch| && batch[i] == a;
      assert Map(batch, AssignmentIdOf())[i] == a.assignmentId;
    }
  }

  /** One agent polls, executes everything, and acknowledges everything. */
  lemma WorkIsARun(w: World, c: Cluster, n: Id, name: nat -> Id, now: Time)
    requires Holds(w, c) && Registered(c.t, n) && Injective(name) && Tidy(c, name)
    ensures LeadsTo(w, Work(c, n, name, now))
  {
    hide Reaches, Injective, Tidy, Registered;
    var batch := PendingAssignments(c.t, n);
    var ids := Map(batch, AssignmentIdOf());
    PollIsBatch(c.t, n) by { TidyMeans(c, name); }
    ReachesItself(w);
    ReachesNext(w, w, Poll(n));
    var polled := Apply(w, Poll(n));
    ExecutionsAreARun(polled, c, n, batch, name, now);
    var ran := Cluster(c.t, RunBatch(c.engines, n, batch, name, now));
    var executed :| Reaches(polled, executed) && Executed(executed, polled, n, ran, ids);
    ReachesOn(w, polled, executed);
    hide Apply, Enabled, PendingAssignments, RunBatch;
    AcknowledgingIsARun(executed, polled, n, ran, batch);
    LeadsOn(w, executed, Cluster(AckAll(c.t, batch), ran.engines));
  }

  lemma AcknowledgingIsARun(v: World, w: World, n: Id, c: Cluster, batch: seq<Assignment>)
    requires Executed(v, w, n, c, Map(batch, AssignmentIdOf()))
    ensures LeadsTo(v, Cluster(AckAll(c.t, batch), c.engines))
  {
    hide Reaches;
    ReachesItself(v);
    ReachesNext(v, v, SendAcks(n));
    var sent := Apply(v, SendAcks(n));
    IdsAreAcked(batch, sent.acks);
    AcksAreARun(sent, batch);
    var acked := sent.(t := AckAll(sent.t, batch));
    ReachesOn(v, sent, acked);
  }

  lemma TidyMeans(c: Cluster, name: nat -> Id)
    requires Tidy(c, name)
    ensures DistinctBy(c.t.assignments, AssignmentIdOf())
  {
  }

  lemma {:induction false} WorkAllIsARun(w: World, c: Cluster, ns: seq<Id>, name: nat -> Id, now: Time)
    requires Holds(w, c) && Injective(name) && Tidy(c, name) && forall n :: n in ns ==> Registered(c.t, n)
    ensures LeadsTo(w, WorkAll(c, ns, name, now))
    decreases |ns|
  {
    hide Reaches, Injective, Tidy, Work, Registered;
    ReachesItself(w);
    if ns != [] {
      var n, rest := ns[0], ns[1..];
      assert WorkAll(c, ns, name, now) == WorkAll(Work(c, n, name, now), rest, name, now);
      var u := Work(c, n, name, now);
      assert n in ns && forall x :: x in rest ==> x in ns;
      assert WorkAll(c, [n], name, now) == u by { assert [n][1..] == []; }
      WorkAllKeepsTidy(c, [n], name, now);
      WorkAllFrame(c, [n], name, now);
      hide WorkAll;
      assert forall x :: Registered(u.t, x) <==> Registered(c.t, x) by { SameNodesSameRegistered(c.t, u.t); }
      WorkIsARun(w, c, n, name, now);
      var mid :| Reaches(w, mid) && Holds(mid, u) && mid.master == w.master;
      WorkAllIsARun(mid, u, rest, name, now);
      LeadsOn(w, mid, WorkAll(u, rest, name, now));
    }
  }

  lemma SameNodesSameRegistered(t: Tables, u: Tables)
    requires u.nodes == t.nodes
    ensures forall n :: Registered(u, n) <==> Registered(t, n)
  {
  }

  // ---- Reporting -----------------------------------------------------------

  lemma ReportIsARun(w: World, c: Cluster, n: Id, usage: Id -> (int, int), now: Time)
    requires Holds(w, c)
    ensures LeadsTo(w, ReportOne(c, n, usage, now))
  {
    hide Reaches, UpdateHeartbeat, Filter;
    var e := SendReport(n, usage(n).0, usage(n).1);
    var r := Report(n, Filter(c.engines, OnNode(n)), usage(n).0, usage(n).1);
    ReachesItself(w);
    ReachesNext(w, w, e);
    var sent := Apply(w, e);
    ReachesNext(w, sent, DeliverReport(r, now));
    var v := Apply(sent, DeliverReport(r, now));
    assert Holds(v, ReportOne(c, n, usage, now)) && v.master == w.master;
  }

  lemma {:induction false} ReportAllIsARun(w: World, c: Cluster, ns: seq<Id>, usage: Id -> (int, int), now: Time)
    requires Holds(w, c)
    ensures LeadsTo(w, ReportAll(c, ns, usage, now))
    decreases |ns|
  {
    hide Reaches, ReportOne;
    ReachesItself(w);
    if ns != [] {
      var u := ReportOne(c, ns[0], usage, now);
      ReportIsARun(w, c, ns[0], usage, now);
      var mid :| Reaches(w, mid) && Holds(mid, u) && mid.master == w.master;
      ReportAllIsARun(mid, u, ns[1..], usage, now);
      LeadsOn(w, mid, ReportAll(u, ns[1..], usage, now));
    }
  }

  // ---- Rounds --------------------------------------------------------------

  /** A round leads, as a run, to exactly its tables and engines. */
  lemma RoundIsARun(w: World, c: Cluster, k: Setup, m: Moment)
    requires Holds(w, c) && w.master == k.master && Base(c, k) && NoneStale(c.t, k.master, m.now)
    ensures LeadsTo(w, Round(c, k, m))
  {
    PassKeepsBase(c, k, m);
    ValidRegisters(c.t);
    PassIsARun(w, m.now, m.tick);
    var b := Reconciled(c, k, m);
    var passed := w.(t := b.t);
    hide Reaches, Pass, ReportAll, WorkAll;
    WorkAllIsARun(passed, b, k.agents, k.name, m.now);
    var worked :| Reaches(passed, worked) && Holds(worked, Worked(c, k, m)) && worked.master == w.master;
    ReachesOn(w, passed, worked);
    ReportAllIsARun(worked, Worked(c, k, m), k.agents, k.usage, m.now);
    LeadsOn(w, worked, Round(c, k, m));
  }

  /** From any base state of any world, two smooth rounds are a run to a converged cluster. */
  lemma ConvergenceIsARun(w: World, c: Cluster, k: Setup, m1: Moment, m2: Moment)
    requires Holds(w, c) && w.master == k.master
    requires Base(c, k) && Smooth(c, k, m1) && Smooth(Round(c, k, m1), k, m2)
    ensures exists c2 :: LeadsTo(w, c2) && Converged(c2, k)
  {
    TwoRoundsConverge(c, k, m1, m2);
    RoundRests(c, k, m1);
    SmoothMeans(c, k, m1);
    SmoothMeans(Round(c, k, m1), k, m2);
    hide Reaches, Round, Smooth, Converged, NoneStale;
    RoundIsARun(w, c, k, m1);
    var mid :| Reaches(w, mid) && Holds(mid, Round(c, k, m1)) && mid.master == w.master;
    RoundIsARun(mid, Round(c, k, m1), k, m2);
    LeadsOn(w, mid, Round(Round(c, k, m1), k, m2));
  }
}
