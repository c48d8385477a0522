/**
 Which nodes are healthy after a pass, and what else of a node's row a pass changes.
 */
module PassHealth {
  import opened Seqs
  import opened Tables
  import opened StateStore
  import opened Scheduling
  import opened Reconciliation
  import opened PassMachine

  /** What is left to mark. */
  function ToMark(p: PassState): seq<Id> { if p.Busy? && p.stage.Marking? then p.stage.ids else [] }

  /** A row as it was, but for what has been reserved and for its status, which may have been marked. */
  predicate RowAfter(x: NodeInfo, n: NodeInfo, stale: seq<Id>, left: seq<Id>) {
    && x == n.(status := x.status, cpuUsed := x.cpuUsed, memoryUsed := x.memoryUsed)
    && (x.status == n.status || (x.status == Unhealthy && n.nodeId in stale))
    && (n.nodeId in stale && n.nodeId !in left ==> x.status == Unhealthy)
  }

  ghost function Marked(alive: Tables, stale: seq<Id>): Config -> bool {
    (c: Config) =>
      && |c.t.nodes| == |alive.nodes|
      && (forall i :: 0 <= i < |alive.nodes| ==> RowAfter(c.t.nodes[i], alive.nodes[i], stale, ToMark(c.pass)))
      && (forall n :: n in ToMark(c.pass) ==> n in stale)
  }

  lemma {:induction false} AdvanceKeepsMarked(alive: Tables, stale: seq<Id>, c: Config)
    requires Marked(alive, stale)(c) && c.pass.Busy?
    ensures Marked(alive, stale)(Advance(c))
  {
    hide Choose, Victims, HasPendingStop, Registered;
    var t, p, v := c.t, c.pass, Advance(c);
    assert |v.t.nodes| == |t.nodes|;
    forall i | 0 <= i < |alive.nodes| ensures RowAfter(v.t.nodes[i], alive.nodes[i], stale, ToMark(v.pass)) {
      assert RowAfter(t.nodes[i], alive.nodes[i], stale, ToMark(p));
    }
    assert forall n :: n in ToMark(v.pass) ==> n in ToMark(p);
  }

  /** Row by row: exactly the stale nodes end unhealthy; besides that only reservations come to a row. */
  lemma {:induction false} PassChangesRows(t: Tables, master: Id, now: Time, tick: nat)
    requires Valid(t)
    ensures var alive, u := KeepMasterAlive(t, master, now), Pass(t, master, now, tick);
      && |u.nodes| == |alive.nodes|
      && forall i :: 0 <= i < |u.nodes| ==> RowAfter(u.nodes[i], alive.nodes[i], StaleNodes(alive, now), [])
  {
    var alive := KeepMasterAlive(t, master, now);
    var stale := StaleNodes(alive, now);
    var c := Begin(t, master, now, tick);
    ValidRegisters(t);
    PassAloneIsPass(t, master, now, tick);
    assert Marked(alive, stale)(c);
    hide Pass, Advance, Marked, Begin, StaleNodes, KeepMasterAlive;
    forall x: Config | Marked(alive, stale)(x) && x.pass.Busy? ensures Marked(alive, stale)(Advance(x)) {
      AdvanceKeepsMarked(alive, stale, x);
    }
    PassInduction(c, Marked(alive, stale));
    MarkedEnds(alive, stale, Finish(c));
  }

  lemma MarkedEnds(alive: Tables, stale: seq<Id>, u: Tables)
    requires Marked(alive, stale)(Config(u, Idle))
    ensures |u.nodes| == |alive.nodes|
    ensures forall i :: 0 <= i < |u.nodes| ==> RowAfter(u.nodes[i], alive.nodes[i], stale, [])
  {
  }

  /** Heard of in the last 30 seconds; the master of the pass always is. */
  predicate InTime(n: NodeInfo, master: Id, now: Time) {
    n.lastHeartbeat >= now - 30.0 || (master != "" && n.nodeId == master && n.role == Master)
  }

  /** After a pass a node is healthy exactly if it was and has been heard of in time, or is the master that runs the pass. */
  lemma {:induction false} HealthyAfterPassIff(t: Tables, master: Id, now: Time, tick: nat, i: nat)
    requires Valid(t) && i < |t.nodes|
    ensures var u := Pass(t, master, now, tick);
      && |u.nodes| == |t.nodes| && u.nodes[i].nodeId == t.nodes[i].nodeId
      && (u.nodes[i].status == Healthy <==> t.nodes[i].status == Healthy && InTime(t.nodes[i], master, now))
  {
    PassChangesRows(t, master, now, tick);
    var alive := KeepMasterAlive(t, master, now);
    AliveRow(t, master, now, i);
    StaleIff(alive, now, i);
    hide Pass, KeepMasterAlive, StaleNodes;
    assert RowAfter(Pass(t, master, now, tick).nodes[i], alive.nodes[i], StaleNodes(alive, now), []);
  }

  lemma AliveRow(t: Tables, master: Id, now: Time, i: nat)
    requires DistinctBy(t.nodes, NodeIdOf()) && i < |t.nodes|
    ensures var alive := KeepMasterAlive(t, master, now);
      && |alive.nodes| == |t.nodes| && DistinctBy(alive.nodes, NodeIdOf())
      && alive.nodes[i] == t.nodes[i].(lastHeartbeat := alive.nodes[i].lastHeartbeat)
      && (HeardInTime(alive.nodes[i], now) <==> (t.nodes[i].status == Healthy ==> InTime(t.nodes[i], master, now)))
  {
    var alive := KeepMasterAlive(t, master, now);
    assert forall j :: 0 <= j < |t.nodes| ==> NodeIdOf()(alive.nodes[j]) == NodeIdOf()(t.nodes[j]);
  }
}
