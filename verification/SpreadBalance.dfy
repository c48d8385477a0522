/**
 Spread scheduling balances: replicas of one deployment, placed and reserved one
 after another on identical idle workers, differ by at most one from worker to worker.
 */
module SpreadBalance {
  import opened Seqs
  import opened Tables
  import opened StateStore
  import opened Scheduling
  import opened Reconciliation

  predicate HealthyWorker(n: NodeInfo) { n.status.Healthy? && n.role.Worker? }

  /** The healthy workers are alike and run nothing yet. */
  ghost predicate AlikeAndIdle(t: Tables) {
    forall m, n :: m in t.nodes && n in t.nodes && HealthyWorker(m) && HealthyWorker(n) ==>
      && m.cpuTotal == n.cpuTotal && m.cpuUsed == n.cpuUsed
      && m.memoryTotal == n.memoryTotal && m.memoryUsed == n.memoryUsed
      && Count(t.containers, RunningOn(n.nodeId)) == 0
  }

  function CreatedOn(n: Id, since: nat): Assignment -> bool {
    (a: Assignment) => a.action.Create? && a.nodeId == n && a.assignmentId >= since
  }

  /** The creates given to a node since `t`. */
  function Given(t: Tables, u: Tables, n: Id): nat { Count(u.assignments, CreatedOn(n, t.nextId)) }

  /** The node rows of `u` are those of `t` plus what was given to each since. */
  ghost predicate Loaded(t: Tables, u: Tables, work: Workload) {
    && u.containers == t.containers
    && u.nextId >= t.nextId
    && |u.nodes| == |t.nodes|
    && forall i :: 0 <= i < |t.nodes| ==>
         u.nodes[i] == t.nodes[i].(
           cpuUsed := t.nodes[i].cpuUsed + Given(t, u, t.nodes[i].nodeId) * work.cpu,
           memoryUsed := t.nodes[i].memoryUsed + Given(t, u, t.nodes[i].nodeId) * work.memory)
  }

  /** Between any two healthy workers the numbers given differ by at most one. */
  ghost predicate Balanced(t: Tables, u: Tables) {
    forall m, n :: m in t.nodes && n in t.nodes && HealthyWorker(m) && HealthyWorker(n) ==>
      Given(t, u, m.nodeId) <= Given(t, u, n.nodeId) + 1
  }

  lemma QuotientOrder(x: int, y: int, d: int)
    requires d > 0
    ensures x > y ==> x as real / d as real > y as real / d as real
    ensures x == y ==> x as real / d as real == y as real / d as real
  {
    if x > y {
      assert (x as real - y as real) / d as real > 0.0;
      assert x as real / d as real == y as real / d as real + (x as real - y as real) / d as real;
    }
  }

  /** Of two alike idle workers the one with more free CPU, and no less memory, scores higher. */
  lemma MoreRoomScoresHigher(t: Tables, a: NodeInfo, b: NodeInfo)
    requires a.role.Worker? && b.role.Worker?
    requires a.cpuTotal == b.cpuTotal && a.memoryTotal == b.memoryTotal
    requires Count(t.containers, RunningOn(a.nodeId)) == 0
    requires Count(t.containers, RunningOn(b.nodeId)) == 0
    requires a.CpuAvailable() > b.CpuAvailable() && a.MemoryAvailable() >= b.MemoryAvailable()
    ensures Score(t, a) > Score(t, b)
  {
    var ct, mt := AtLeastOne(a.cpuTotal), AtLeastOne(a.memoryTotal);
    QuotientOrder(a.CpuAvailable(), b.CpuAvailable(), ct);
    QuotientOrder(a.MemoryAvailable(), b.MemoryAvailable(), mt);
    QuotientOrder(b.CpuAvailable(), 0, ct);
    QuotientOrder(b.MemoryAvailable(), 0, mt);
  }

  lemma {:induction false} ProductOrder(p: nat, q: nat, c: int)
    requires p < q && c >= 1
    ensures p * c + c <= q * c
    decreases q
  {
    assert q * c == (q - 1) * c + c;
    if p < q - 1 {
      ProductOrder(p, q - 1, c);
    }
  }

  lemma ChosenFits(t: Tables, work: Workload)
    requires Choose(t, work).Placed?
    ensures var n := Choose(t, work).decision.node;
      n in t.nodes && Fits(work)(n)
  {
    ChoiceIsBest(t, work);
  }

  lemma ChosenBeats(t: Tables, work: Workload, m: NodeInfo)
    requires Choose(t, work).Placed? && m in t.nodes && HealthyWorker(m) && Fits(work)(m)
    ensures Score(t, m) <= Score(t, Choose(t, work).decision.node)
  {
    ChoiceIsBest(t, work);
    hide Score, Choose;
  }

  /** The chosen worker has been given no more than any other healthy worker. */
  lemma ChosenWasGivenLeast(t: Tables, u: Tables, work: Workload, i: nat, j: nat)
    requires AlikeAndIdle(t) && Loaded(t, u, work) && work.cpu >= 1 && work.memory >= 1
    requires Choose(u, work).Placed?
    requires i < |t.nodes| && j < |t.nodes| && HealthyWorker(t.nodes[i]) && HealthyWorker(t.nodes[j])
    requires u.nodes[i] == Choose(u, work).decision.node && Fits(work)(u.nodes[i])
    ensures Given(t, u, t.nodes[i].nodeId) <= Given(t, u, t.nodes[j].nodeId)
  {
    hide Score, Choose, Given;
    var a, b := u.nodes[j], u.nodes[i];
    var p, q := Given(t, u, t.nodes[j].nodeId), Given(t, u, t.nodes[i].nodeId);
    assert t.nodes[i] in t.nodes && t.nodes[j] in t.nodes;
    if p < q {
      ProductOrder(p, q, work.cpu);
      ProductOrder(p, q, work.memory);
      assert a.CpuAvailable() >= b.CpuAvailable() + work.cpu;
      assert a.MemoryAvailable() >= b.MemoryAvailable() + work.memory;
      ChosenBeats(u, work, a);
      MoreRoomScoresHigher(u, a, b);
    }
  }

  lemma PlaceGives(t: Tables, u: Tables, d: Deployment, n: Id, now: Time)
    requires Registered(u, n) && u.nextId >= t.nextId
    ensures forall m :: Given(t, Place(u, d, n, now), m) == Given(t, u, m) + if m == n then 1 else 0
  {
    var a := Assignment(u.nextId, n, Create, d.deploymentId, "", d.serviceName, d.work, now, false);
    var v := Place(u, d, n, now);
    assert v.assignments == u.assignments + [a];
    forall m ensures Given(t, v, m) == Given(t, u, m) + if m == n then 1 else 0 {
      CountAppend(u.assignments, a, CreatedOn(m, t.nextId));
    }
  }

  lemma PlaceLoads(t: Tables, u: Tables, d: Deployment, n: Id, now: Time)
    requires Loaded(t, u, d.work) && Registered(u, n)
    ensures Loaded(t, Place(u, d, n, now), d.work)
    ensures forall m :: Given(t, Place(u, d, n, now), m) == Given(t, u, m) + if m == n then 1 else 0
  {
    hide Given;
    var v := Place(u, d, n, now);
    PlaceGives(t, u, d, n, now);
    forall i | 0 <= i < |t.nodes|
      ensures v.nodes[i] == t.nodes[i].(
           cpuUsed := t.nodes[i].cpuUsed + Given(t, v, t.nodes[i].nodeId) * d.work.cpu,
           memoryUsed := t.nodes[i].memoryUsed + Given(t, v, t.nodes[i].nodeId) * d.work.memory)
    {
      assert v.nodes[i] == Reserving(n, d.work.cpu, d.work.memory)(u.nodes[i]);
      OneMore(Given(t, u, t.nodes[i].nodeId), d.work.cpu);
      OneMore(Given(t, u, t.nodes[i].nodeId), d.work.memory);
    }
  }

  lemma OneMore(g: int, c: int)
    ensures (g + 1) * c == g * c + c
  {
  }

  lemma PlaceKeepsBalance(t: Tables, u: Tables, d: Deployment, now: Time)
    requires Valid(t) && AlikeAndIdle(t) && Loaded(t, u, d.work) && Balanced(t, u)
    requires d.work.cpu >= 1 && d.work.memory >= 1 && Choose(u, d.work).Placed?
    ensures Balanced(t, Place(u, d, Choose(u, d.work).decision.node.nodeId, now))
  {
    hide Score, Choose, Fits, Given, Place, AlikeAndIdle, Loaded;
    ChosenFits(u, d.work);
    var i :| 0 <= i < |u.nodes| && u.nodes[i] == Choose(u, d.work).decision.node;
    var chosen := u.nodes[i];
    ChoiceIsRegistered(u, d.work);
    PlaceLoads(t, u, d, chosen.nodeId, now);
    var v := Place(u, d, chosen.nodeId, now);
    forall m, n | m in t.nodes && n in t.nodes && HealthyWorker(m) && HealthyWorker(n)
      ensures Given(t, v, m.nodeId) <= Given(t, v, n.nodeId) + 1
    {
      if m.nodeId == chosen.nodeId {
        var k :| 0 <= k < |t.nodes| && t.nodes[k] == m;
        var j :| 0 <= j < |t.nodes| && t.nodes[j] == n;
        LoadedKeepsIds(t, u, d.work, i);
        assert NodeIdOf()(t.nodes[k]) == NodeIdOf()(t.nodes[i]);
        ChosenWasGivenLeast(t, u, d.work, k, j);
      }
    }
  }

  lemma LoadedKeepsIds(t: Tables, u: Tables, work: Workload, i: nat)
    requires Loaded(t, u, work) && i < |u.nodes|
    ensures |u.nodes| == |t.nodes| && u.nodes[i].nodeId == t.nodes[i].nodeId
  {
  }

  lemma {:induction false} ScaleUpBalances(t: Tables, u: Tables, d: Deployment, count: nat, now: Time)
    requires Valid(t) && AlikeAndIdle(t) && d.work.cpu >= 1 && d.work.memory >= 1
    requires Loaded(t, u, d.work) && Balanced(t, u)
    ensures Balanced(t, ScaleUp(u, d, count, now))
    decreases count
  {
    hide Valid, AlikeAndIdle, Loaded, Balanced, Choose, Place;
    if count != 0 && Choose(u, d.work).Placed? {
      var n := Choose(u, d.work).decision.node.nodeId;
      ChoiceIsRegistered(u, d.work);
      PlaceKeepsBalance(t, u, d, now);
      PlaceLoads(t, u, d, n, now);
      ScaleUpBalances(t, Place(u, d, n, now), d, count - 1, now);
    }
  }

  /**
   Scaling a deployment up by any amount on alike idle workers leaves them balanced,
   also when the workers fill up and placement falls back to a master.
   */
  lemma SpreadIsBalanced(t: Tables, d: Deployment, count: nat, now: Time)
    requires Valid(t) && AlikeAndIdle(t) && d.work.cpu >= 1 && d.work.memory >= 1
    ensures Balanced(t, ScaleUp(t, d, count, now))
  {
    forall n ensures Given(t, t, n) == 0 {
      CountNone(t.assignments, CreatedOn(n, t.nextId));
    }
    ScaleUpBalances(t, t, d, count, now);
  }
}
