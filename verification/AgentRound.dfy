/**
 One round of the agents: every agent polls, executes, acknowledges; then every agent
 reports.  What a round of work conserves, and what a round of reports makes true.
 */
module AgentRound {
  import opened Seqs
  import opened Tables
  import opened StateStore
  import opened ClusterProtocol
  import opened PassIdempotence

  /** The master's tables and what all engines hold. */
  datatype Cluster = Cluster(t: Tables, engines: seq<ContainerRecord>)

  // ---- Working -------------------------------------------------------------

  function RunBatch(engines: seq<ContainerRecord>, n: Id, batch: seq<Assignment>, name: nat -> Id, now: Time)
    : seq<ContainerRecord>
    decreases |batch|
  {
    if batch == [] then engines
    else
      RunBatch(RunAssignment(engines, n, batch[0], Done, name(batch[0].assignmentId), now), n, batch[1..], name, now)
  }

  function AckAll(t: Tables, batch: seq<Assignment>): Tables
    decreases |batch|
  {
    if batch == [] then t else AckAll(AcknowledgeAssignment(t, batch[0].assignmentId), batch[1..])
  }

  /** An agent polls, executes everything with success, and acknowledges everything. */
  function Work(c: Cluster, n: Id, name: nat -> Id, now: Time): Cluster {
    var batch := PendingAssignments(c.t, n);
    Cluster(AckAll(c.t, batch), RunBatch(c.engines, n, batch, name, now))
  }

  function WorkAll(c: Cluster, ns: seq<Id>, name: nat -> Id, now: Time): Cluster
    decreases |ns|
  {
    if ns == [] then c else WorkAll(Work(c, ns[0], name, now), ns[1..], name, now)
  }

  function WorkOne(c: Cluster, a: Assignment, name: nat -> Id, now: Time): Cluster {
    Cluster(AcknowledgeAssignment(c.t, a.assignmentId),
            RunAssignment(c.engines, a.nodeId, a, Done, name(a.assignmentId), now))
  }

  ghost predicate Injective(name: nat -> Id) {
    && (forall i: nat :: name(i) != "")
    && (forall i: nat, j: nat :: i != j ==> name(i) != name(j))
  }

  predicate IsPending(a: Assignment) { !a.acknowledged }

  /** Unique ids; the names of containers still to be created are unused. */
  ghost predicate Tidy(c: Cluster, name: nat -> Id) {
    && DistinctBy(c.t.assignments, AssignmentIdOf())
    && DistinctBy(c.engines, ContainerIdOf())
    && (forall a :: a in c.t.assignments ==> a.assignmentId < c.t.nextId)
    && (forall e :: e in c.engines ==> e.containerId != "")
    && (forall e, j: nat :: e in c.engines && j >= c.t.nextId ==> name(j) != e.containerId)
    && (forall a, e :: a in c.t.assignments && a.action.Create? && IsPending(a) && e in c.engines ==>
          name(a.assignmentId) != e.containerId)
  }

  predicate PendingStop(t: Tables, b: Assignment) {
    b in t.assignments && b.action.Stop? && IsPending(b)
  }

  /** A pending stop names a container that exists, if it does, on the stop's own node. */
  ghost predicate Matched(c: Cluster, name: nat -> Id) {
    && (forall a, b :: a in c.t.assignments && a.action.Create? && IsPending(a) && PendingStop(c.t, b) ==>
          name(a.assignmentId) != b.containerId)
    && (forall b, e :: PendingStop(c.t, b) && e in c.engines ==>
          e.containerId == b.containerId ==> e.nodeId == b.nodeId)
  }

  ghost predicate Ready(c: Cluster, name: nat -> Id) { Tidy(c, name) && Matched(c, name) }

  // ---- What working conserves ----------------------------------------------

  /** Running, in one of the deployments `ds`, and not about to be stopped. */
  function WillRun(t: Tables, ds: Id -> bool): ContainerRecord -> bool {
    (c: ContainerRecord) => ds(c.deploymentId) && c.status.Running? && PendingStops(t, c.containerId) == 0
  }

  function Coming(ds: Id -> bool): Assignment -> bool {
    (a: Assignment) => ds(a.deploymentId) && a.action.Create? && !a.acknowledged
  }

  /** The containers of `ds` there will be once everything pending has been executed. */
  function Intent(c: Cluster, ds: Id -> bool): nat {
    Count(c.engines, WillRun(c.t, ds)) + Count(c.t.assignments, Coming(ds))
  }

  lemma CountSame<T>(s: seq<T>, p: T -> bool, q: T -> bool)
    requires forall x :: x in s ==> (p(x) <==> q(x))
    ensures Count(s, p) == Count(s, q)
  {
    CountMono(s, p, q);
    CountMono(s, q, p);
  }

  /** Acknowledging one row takes exactly that row out of any count of pending rows. */
  lemma {:induction false} AckTakesOne(s: seq<Assignment>, a: Assignment, p: Assignment -> bool)
    requires DistinctBy(s, AssignmentIdOf()) && a in s
    requires forall x :: x in s ==> !p(x.(acknowledged := true))
    ensures Count(Map(s, Acknowledging(a.assignmentId)), p) == Count(s, p) - if p(a) then 1 else 0
  {
    var n := |s| - 1;
    var f := Acknowledging(a.assignmentId);
    assert Map(s, f)[..n] == Map(s[..n], f);
    if s[n] == a {
      forall x | x in s[..n] ensures f(x) == x {
        var i :| 0 <= i < n && s[i] == x;
        assert AssignmentIdOf()(s[i]) != AssignmentIdOf()(s[n]);
      }
      CountOfMap(s[..n], f, p, p);
    } else {
      assert a in s[..n];
      var i :| 0 <= i < n && s[i] == a;
      assert AssignmentIdOf()(s[i]) != AssignmentIdOf()(s[n]);
      AckTakesOne(s[..n], a, p);
    }
  }

  lemma AckIntent(t: Tables, a: Assignment, ds: Id -> bool, id: Id)
    requires DistinctBy(t.assignments, AssignmentIdOf()) && a in t.assignments && IsPending(a)
    ensures var u := AcknowledgeAssignment(t, a.assignmentId);
      && Count(u.assignments, Coming(ds))
         == Count(t.assignments, Coming(ds)) - (if a.action.Create? && ds(a.deploymentId) then 1 else 0)
      && PendingStops(u, id)
         == PendingStops(t, id) - if a.action.Stop? && a.containerId == id then 1 else 0
  {
    AckTakesOne(t.assignments, a, Coming(ds));
    AckTakesOne(t.assignments, a, PendingStopOf(id));
  }

  lemma NoStopPending(t: Tables, id: Id)
    requires forall b :: b in t.assignments && b.action.Stop? && IsPending(b) ==> b.containerId != id
    ensures PendingStops(t, id) == 0
  {
    CountNone(t.assignments, PendingStopOf(id));
  }

  lemma {:induction false} CountPositive<T>(s: seq<T>, p: T -> bool, x: T)
    requires x in s && p(x)
    ensures Count(s, p) >= 1
  {
    assert x in Filter(s, p);
  }

  lemma CreateConserves(c: Cluster, a: Assignment, name: nat -> Id, now: Time, ds: Id -> bool)
    requires Ready(c, name) && a in c.t.assignments && IsPending(a) && a.action.Create?
    ensures Intent(WorkOne(c, a, name, now), ds) == Intent(c, ds)
  {
    var v := WorkOne(c, a, name, now);
    var id := name(a.assignmentId);
    var row := ContainerRecord(id, a.nodeId, a.deploymentId, ContainerName(a.serviceName, id), Running, now);
    assert v.engines == c.engines + [row];
    AckIntent(c.t, a, ds, row.containerId);
    NoStopPending(c.t, row.containerId);
    CountAppend(c.engines, row, WillRun(v.t, ds));
    forall e | e in c.engines ensures WillRun(v.t, ds)(e) <==> WillRun(c.t, ds)(e) {
      AckIntent(c.t, a, ds, e.containerId);
    }
    CountSame(c.engines, WillRun(v.t, ds), WillRun(c.t, ds));
  }

  lemma StopConserves(c: Cluster, a: Assignment, name: nat -> Id, now: Time, ds: Id -> bool)
    requires Ready(c, name) && a in c.t.assignments && IsPending(a) && a.action.Stop?
    ensures Intent(WorkOne(c, a, name, now), ds) == Intent(c, ds)
  {
    var v := WorkOne(c, a, name, now);
    AckIntent(c.t, a, ds, "");
    var stays := NotStopped(a.nodeId, a.containerId);
    var both := (e: ContainerRecord) => stays(e) && WillRun(v.t, ds)(e);
    forall e | e in c.engines
      ensures WillRun(c.t, ds)(e) <==> if a.containerId == "" then WillRun(v.t, ds)(e) else both(e)
    {
      AckIntent(c.t, a, ds, e.containerId);
      if e.containerId == a.containerId {
        assert PendingStopOf(e.containerId)(a);
        CountPositive(c.t.assignments, PendingStopOf(e.containerId), a);
      }
    }
    if a.containerId == "" {
      CountSame(c.engines, WillRun(v.t, ds), WillRun(c.t, ds));
    } else {
      CountOfFilter(c.engines, stays, WillRun(v.t, ds), both);
      CountSame(c.engines, both, WillRun(c.t, ds));
    }
  }

  lemma AckedRows(s: seq<Assignment>, a: Assignment)
    requires DistinctBy(s, AssignmentIdOf()) && a in s
    ensures DistinctBy(Map(s, Acknowledging(a.assignmentId)), AssignmentIdOf())
    ensures forall x :: x in Map(s, Acknowledging(a.assignmentId)) && IsPending(x) ==> x in s && x != a
    ensures forall x :: x in s && x != a ==> x in Map(s, Acknowledging(a.assignmentId))
    ensures forall x :: x in Map(s, Acknowledging(a.assignmentId)) ==>
      exists y :: y in s && y.assignmentId == x.assignmentId && y.nodeId == x.nodeId
  {
    var f := Acknowledging(a.assignmentId);
    var u := Map(s, f);
    AckedOthersStay(s, a);
    assert forall i :: 0 <= i < |s| ==> AssignmentIdOf()(u[i]) == AssignmentIdOf()(s[i]);
    forall x | x in u
      ensures IsPending(x) ==> x in s && x != a
      ensures exists y :: y in s && y.assignmentId == x.assignmentId && y.nodeId == x.nodeId
    {
      var i :| 0 <= i < |u| && u[i] == x;
      assert x == f(s[i]) && s[i] in s;
    }
  }

  lemma AckedOthersStay(s: seq<Assignment>, a: Assignment)
    requires DistinctBy(s, AssignmentIdOf()) && a in s
    ensures forall x :: x in s && x != a ==> x in Map(s, Acknowledging(a.assignmentId))
  {
    var u := Map(s, Acknowledging(a.assignmentId));
    var j :| 0 <= j < |s| && s[j] == a;
    forall x | x in s && x != a ensures x in u {
      var i :| 0 <= i < |s| && s[i] == x;
      assert AssignmentIdOf()(s[i]) != AssignmentIdOf()(s[j]);
      assert u[i] == x;
    }
  }

  lemma EngineRows(engines: seq<ContainerRecord>, a: Assignment, id: Id, now: Time)
    requires DistinctBy(engines, ContainerIdOf())
    requires a.action.Create? ==> forall e :: e in engines ==> e.containerId != id
    ensures DistinctBy(RunAssignment(engines, a.nodeId, a, Done, id, now), ContainerIdOf())
    ensures forall e :: e in RunAssignment(engines, a.nodeId, a, Done, id, now) ==>
      e in engines || (a.action.Create? && e.containerId == id && e.nodeId == a.nodeId && e.deploymentId == a.deploymentId)
  {
    var v := RunAssignment(engines, a.nodeId, a, Done, id, now);
    if a.action.Create? {
      assert forall i :: 0 <= i < |engines| ==> engines[i] in engines;
    } else if a.containerId != "" {
      FilterDistinct(engines, NotStopped(a.nodeId, a.containerId), ContainerIdOf());
    }
  }

  lemma OtherId(s: seq<Assignment>, x: Assignment, y: Assignment)
    requires DistinctBy(s, AssignmentIdOf()) && x in s && y in s && x != y
    ensures x.assignmentId != y.assignmentId
  {
    var i :| 0 <= i < |s| && s[i] == x;
    var j :| 0 <= j < |s| && s[j] == y;
    assert AssignmentIdOf()(s[i]) != AssignmentIdOf()(s[j]);
  }

  lemma WorkOneKeepsTidy(c: Cluster, a: Assignment, name: nat -> Id, now: Time)
    requires Injective(name) && Tidy(c, name) && a in c.t.assignments && IsPending(a)
    ensures Tidy(WorkOne(c, a, name, now), name)
  {
    var v := WorkOne(c, a, name, now);
    AckedRows(c.t.assignments, a);
    EngineRows(c.engines, a, name(a.assignmentId), now);
    hide RunAssignment, Map;
    forall x | x in v.t.assignments ensures x.assignmentId < v.t.nextId {
      var y :| y in c.t.assignments && y.assignmentId == x.assignmentId && y.nodeId == x.nodeId;
    }
    forall x, e | x in v.t.assignments && x.action.Create? && IsPending(x) && e in v.engines
      ensures name(x.assignmentId) != e.containerId
    {
      assert x in c.t.assignments && x != a;
      if e !in c.engines {
        OtherId(c.t.assignments, x, a);
      }
    }
    forall e, j: nat | e in v.engines && j >= v.t.nextId ensures name(j) != e.containerId {
      assert e in c.engines || e.containerId == name(a.assignmentId);
    }
  }

  lemma WorkOneKeepsMatched(c: Cluster, a: Assignment, name: nat -> Id, now: Time)
    requires Ready(c, name) && a in c.t.assignments && IsPending(a)
    ensures Matched(WorkOne(c, a, name, now), name)
  {
    var v := WorkOne(c, a, name, now);
    AckedRows(c.t.assignments, a);
    EngineRows(c.engines, a, name(a.assignmentId), now);
    hide RunAssignment, Map;
    forall b, e | PendingStop(v.t, b) && e in v.engines && e.containerId == b.containerId
      ensures e.nodeId == b.nodeId
    {
      assert PendingStop(c.t, b);
      assert e in c.engines || e.containerId == name(a.assignmentId);
    }
    forall x, b | x in v.t.assignments && x.action.Create? && IsPending(x) && PendingStop(v.t, b)
      ensures name(x.assignmentId) != b.containerId
    {
      assert PendingStop(c.t, b);
    }
  }

  // ---- A whole batch, and all batches --------------------------------------

  /** The assignments of a batch one by one. */
  function WorkEach(c: Cluster, batch: seq<Assignment>, name: nat -> Id, now: Time): Cluster
    decreases |batch|
  {
    if batch == [] then c else WorkEach(WorkOne(c, batch[0], name, now), batch[1..], name, now)
  }

  lemma {:induction false} WorkIsOneByOne(c: Cluster, n: Id, batch: seq<Assignment>, name: nat -> Id, now: Time)
    requires forall a :: a in batch ==> a.nodeId == n
    ensures Cluster(AckAll(c.t, batch), RunBatch(c.engines, n, batch, name, now)) == WorkEach(c, batch, name, now)
    decreases |batch|
  {
    if batch != [] {
      assert batch[0] in batch && forall a :: a in batch[1..] ==> a in batch;
      WorkIsOneByOne(WorkOne(c, batch[0], name, now), n, batch[1..], name, now);
    }
  }

  /** `batch` is part of what is pending in `t`. */
  ghost predicate Batch(t: Tables, batch: seq<Assignment>) {
    && DistinctBy(batch, AssignmentIdOf())
    && forall a :: a in batch ==> a in t.assignments && IsPending(a)
  }

  lemma BatchStep(c: Cluster, batch: seq<Assignment>, name: nat -> Id, now: Time)
    requires Tidy(c, name) && Batch(c.t, batch) && batch != []
    ensures Batch(WorkOne(c, batch[0], name, now).t, batch[1..])
    ensures batch[0] in c.t.assignments && IsPending(batch[0])
    ensures forall x :: x in WorkOne(c, batch[0], name, now).t.assignments && IsPending(x) ==>
      x in c.t.assignments && x != batch[0]
  {
    var a := batch[0];
    assert a in batch;
    AckedRows(c.t.assignments, a);
    forall x | x in batch[1..] ensures x in batch && x != a {
      var i :| 0 <= i < |batch[1..]| && batch[1..][i] == x;
      assert AssignmentIdOf()(batch[0]) != AssignmentIdOf()(batch[i + 1]);
    }
  }

  lemma {:induction false} WorkEachKeepsTidy(c: Cluster, batch: seq<Assignment>, name: nat -> Id, now: Time)
    requires Injective(name) && Tidy(c, name) && Batch(c.t, batch)
    ensures var v := WorkEach(c, batch, name, now);
      && Tidy(v, name)
      && (forall x :: x in v.t.assignments && IsPending(x) ==> x in c.t.assignments && x !in batch)
    decreases |batch|
  {
    hide Tidy, Injective, WorkOne, Batch;
    if batch != [] {
      BatchStep(c, batch, name, now);
      WorkOneKeepsTidy(c, batch[0], name, now);
      WorkEachKeepsTidy(WorkOne(c, batch[0], name, now), batch[1..], name, now);
      assert batch == [batch[0]] + batch[1..];
    }
  }

  lemma {:induction false} WorkEachConserves(
    c: Cluster, batch: seq<Assignment>, name: nat -> Id, now: Time, ds: Id -> bool)
    requires Injective(name) && Ready(c, name) && Batch(c.t, batch)
    ensures Ready(WorkEach(c, batch, name, now), name)
    ensures Intent(WorkEach(c, batch, name, now), ds) == Intent(c, ds)
    decreases |batch|
  {
    hide Tidy, Matched, Injective, WorkOne, Batch, Intent;
    if batch != [] {
      var a := batch[0];
      BatchStep(c, batch, name, now);
      WorkOneKeepsTidy(c, a, name, now);
      WorkOneKeepsMatched(c, a, name, now);
      if a.action.Create? {
        CreateConserves(c, a, name, now, ds);
      } else {
        StopConserves(c, a, name, now, ds);
      }
      WorkEachConserves(WorkOne(c, a, name, now), batch[1..], name, now, ds);
    }
  }

  lemma PollIsBatch(t: Tables, n: Id)
    requires DistinctBy(t.assignments, AssignmentIdOf())
    ensures Batch(t, PendingAssignments(t, n))
    ensures forall a :: a in PendingAssignments(t, n) <==> a in t.assignments && IsPending(a) && a.nodeId == n
  {
    FilterDistinct(t.assignments, PendingOn(n), AssignmentIdOf());
    forall a ensures a in PendingAssignments(t, n) <==> a in t.assignments && IsPending(a) && a.nodeId == n {
      assert PendingOn(n)(a) <==> a.nodeId == n && IsPending(a);
    }
  }

  lemma {:induction false} WorkAllKeepsTidy(c: Cluster, ns: seq<Id>, name: nat -> Id, now: Time)
    requires Injective(name) && Tidy(c, name)
    ensures var v := WorkAll(c, ns, name, now);
      && Tidy(v, name)
      && (forall x :: x in v.t.assignments && IsPending(x) ==> x in c.t.assignments && x.nodeId !in ns)
    decreases |ns|
  {
    hide Injective, WorkEach, AckAll, RunBatch;
    if ns != [] {
      var batch := PendingAssignments(c.t, ns[0]);
      PollIsBatch(c.t, ns[0]);
      WorkIsOneByOne(c, ns[0], batch, name, now);
      WorkEachKeepsTidy(c, batch, name, now);
      hide Tidy;
      WorkAllKeepsTidy(Work(c, ns[0], name, now), ns[1..], name, now);
      assert ns == [ns[0]] + ns[1..];
    }
  }

  /** Executing and acknowledging everything changes nobody's intended number of containers. */
  lemma {:induction false} WorkAllConserves(c: Cluster, ns: seq<Id>, name: nat -> Id, now: Time, ds: Id -> bool)
    requires Injective(name) && Ready(c, name)
    ensures Ready(WorkAll(c, ns, name, now), name)
    ensures Intent(WorkAll(c, ns, name, now), ds) == Intent(c, ds)
    decreases |ns|
  {
    hide Injective, Matched, WorkEach, AckAll, RunBatch, Intent;
    if ns != [] {
      var batch := PendingAssignments(c.t, ns[0]);
      PollIsBatch(c.t, ns[0]);
      WorkIsOneByOne(c, ns[0], batch, name, now);
      WorkEachConserves(c, batch, name, now, ds);
      hide Tidy;
      WorkAllConserves(Work(c, ns[0], name, now), ns[1..], name, now, ds);
    }
  }

  /** What working leaves of the tables and the engines' nodes. */
  lemma {:induction false} WorkEachFrame(c: Cluster, batch: seq<Assignment>, name: nat -> Id, now: Time)
    ensures WorkEach(c, batch, name, now).t
         == c.t.(assignments := WorkEach(c, batch, name, now).t.assignments)
    ensures forall e :: e in WorkEach(c, batch, name, now).engines ==>
      e in c.engines
      || exists a :: a in batch && a.action.Create? && e.nodeId == a.nodeId && e.deploymentId == a.deploymentId
    decreases |batch|
  {
    if batch != [] {
      var a := batch[0];
      var v := WorkOne(c, a, name, now);
      assert a in batch && forall x :: x in batch[1..] ==> x in batch;
      forall e | e in v.engines
        ensures e in c.engines || (a.action.Create? && e.nodeId == a.nodeId && e.deploymentId == a.deploymentId)
      {
      }
      hide WorkOne;
      assert v.t == c.t.(assignments := v.t.assignments) by { AckTables(c, a, name, now); }
      WorkEachFrame(v, batch[1..], name, now);
    }
  }

  lemma AckTables(c: Cluster, a: Assignment, name: nat -> Id, now: Time)
    ensures WorkOne(c, a, name, now).t == c.t.(assignments := WorkOne(c, a, name, now).t.assignments)
  {
  }

  lemma {:induction false} WorkAllFrame(c: Cluster, ns: seq<Id>, name: nat -> Id, now: Time)
    requires Injective(name) && Tidy(c, name)
    ensures WorkAll(c, ns, name, now).t == c.t.(assignments := WorkAll(c, ns, name, now).t.assignments)
    ensures forall e :: e in WorkAll(c, ns, name, now).engines ==>
      e in c.engines || e.nodeId in ns
    decreases |ns|
  {
    hide Injective, WorkEach, AckAll, RunBatch;
    if ns != [] {
      var batch := PendingAssignments(c.t, ns[0]);
      PollIsBatch(c.t, ns[0]);
      WorkIsOneByOne(c, ns[0], batch, name, now);
      WorkEachKeepsTidy(c, batch, name, now);
      WorkEachFrame(c, batch, name, now);
      hide Tidy;
      WorkAllFrame(Work(c, ns[0], name, now), ns[1..], name, now);
      assert ns == [ns[0]] + ns[1..];
    }
  }

  // ---- Reporting -----------------------------------------------------------

  function ReportOne(c: Cluster, n: Id, usage: Id -> (int, int), now: Time): Cluster {
    c.(t := UpdateHeartbeat(c.t, n, Filter(c.engines, OnNode(n)), usage(n).0, usage(n).1, now))
  }

  function ReportAll(c: Cluster, ns: seq<Id>, usage: Id -> (int, int), now: Time): Cluster
    decreases |ns|
  {
    if ns == [] then c else ReportAll(ReportOne(c, ns[0], usage, now), ns[1..], usage, now)
  }

  /** Of node `n` the table shows what its engine holds. */
  ghost predicate ShownOn(c: Cluster, n: Id) {
    forall e: ContainerRecord :: e.nodeId == n ==> (e in c.t.containers <==> e in c.engines)
  }

  /** The table shows exactly what the engines hold. */
  ghost predicate Synced(c: Cluster) {
    && DistinctBy(c.t.containers, ContainerIdOf()) && DistinctBy(c.engines, ContainerIdOf())
    && forall e :: e in c.t.containers <==> e in c.engines
  }

  lemma ReportShows(c: Cluster, n: Id, usage: Id -> (int, int), now: Time)
    requires Registered(c.t, n)
    requires DistinctBy(c.t.containers, ContainerIdOf()) && DistinctBy(c.engines, ContainerIdOf())
    ensures ShownOn(ReportOne(c, n, usage, now), n)
    ensures forall m :: ShownOn(c, m) ==> ShownOn(ReportOne(c, n, usage, now), m)
    ensures DistinctBy(ReportOne(c, n, usage, now).t.containers, ContainerIdOf())
    ensures forall e :: e in ReportOne(c, n, usage, now).t.containers ==> e in c.t.containers || e.nodeId == n
  {
    var rows := Filter(c.engines, OnNode(n));
    var cs := Filter(c.t.containers, NotOnNode(n));
    var v := ReportOne(c, n, usage, now);
    FilterDistinct(c.t.containers, NotOnNode(n), ContainerIdOf());
    InsertReportedDistinct(cs, rows, n);
    assert forall r :: r in rows ==> r in c.engines && OnNode(n)(r);
    forall e | e in v.t.containers
      ensures e in cs || e in rows
      ensures e in c.t.containers || e.nodeId == n
      ensures e.nodeId == n ==> e in c.engines
    {
      InsertReportedOrigin(cs, rows, n, e);
      assert e in cs ==> NotOnNode(n)(e);
    }
    forall e | e in c.engines && e.nodeId == n ensures e in v.t.containers {
      assert OnNode(n)(e) && e in rows;
      InsertReportedShows(cs, rows, n, e.containerId);
      var x :| x in rows && x.containerId == e.containerId && x.(nodeId := n) in InsertReported(cs, rows, n);
      SameIdSameRow(c.engines, x, e);
    }
    forall e | e in c.engines && e in c.t.containers && e.nodeId != n ensures e in v.t.containers {
      assert NotOnNode(n)(e) && e in cs;
      forall r | r in rows ensures r.containerId != e.containerId {
        if r.containerId == e.containerId {
          SameIdSameRow(c.engines, r, e);
        }
      }
      InsertReportedKeeps(cs, rows, n, e);
    }
  }

  lemma ReportKeepsRegistered(c: Cluster, n: Id, usage: Id -> (int, int), now: Time)
    ensures forall m :: Registered(ReportOne(c, n, usage, now).t, m) <==> Registered(c.t, m)
    ensures ReportOne(c, n, usage, now).t.assignments == c.t.assignments
    ensures ReportOne(c, n, usage, now).t.deployments == c.t.deployments
    ensures ReportOne(c, n, usage, now).t.nextId == c.t.nextId
  {
    var v := ReportOne(c, n, usage, now);
    if Registered(c.t, n) {
      assert forall i :: 0 <= i < |c.t.nodes| ==> v.t.nodes[i].nodeId == c.t.nodes[i].nodeId;
    }
  }

  lemma {:induction false} ReportAllFrame(c: Cluster, ns: seq<Id>, usage: Id -> (int, int), now: Time)
    ensures var v := ReportAll(c, ns, usage, now);
      && v.engines == c.engines
      && v.t.assignments == c.t.assignments && v.t.deployments == c.t.deployments && v.t.nextId == c.t.nextId
      && (forall m :: Registered(v.t, m) <==> Registered(c.t, m))
    decreases |ns|
  {
    if ns != [] {
      ReportKeepsRegistered(c, ns[0], usage, now);
      ReportEngines(c, ns[0], usage, now);
      hide ReportOne, Registered;
      ReportAllFrame(ReportOne(c, ns[0], usage, now), ns[1..], usage, now);
    }
  }

  lemma {:induction false} ReportAllShows(c: Cluster, ns: seq<Id>, usage: Id -> (int, int), now: Time)
    requires forall n :: n in ns ==> Registered(c.t, n)
    requires DistinctBy(c.t.containers, ContainerIdOf()) && DistinctBy(c.engines, ContainerIdOf())
    ensures var v := ReportAll(c, ns, usage, now);
      && (forall m :: m in ns || ShownOn(c, m) ==> ShownOn(v, m))
      && DistinctBy(v.t.containers, ContainerIdOf())
      && (forall e :: e in v.t.containers ==> e in c.t.containers || e.nodeId in ns)
    decreases |ns|
  {
    if ns != [] {
      assert ns[0] in ns;
      ReportShows(c, ns[0], usage, now);
      ReportKeepsRegistered(c, ns[0], usage, now);
      ReportEngines(c, ns[0], usage, now);
      hide ReportOne, ShownOn, Registered;
      assert forall n :: n in ns <==> n == ns[0] || n in ns[1..];
      ReportAllShows(ReportOne(c, ns[0], usage, now), ns[1..], usage, now);
    }
  }

  lemma ReportEngines(c: Cluster, n: Id, usage: Id -> (int, int), now: Time)
    ensures ReportOne(c, n, usage, now).engines == c.engines
  {
  }
}
