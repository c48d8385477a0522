/**
 No assignment is lost: with crashes, failed executions, late and dropped
 acknowledgements, an assignment on a node that stays in the cluster is offered at
 every poll until its acknowledgement arrives, and then it has been executed.
 */
module AtLeastOnce {
  import opened Seqs
  import opened Tables
  import opened Reconciliation
  import opened PassMachine
  import opened ClusterProtocol
  import Scheduling

  /** Nothing counts as done, anywhere on the way to the master, that was not executed. */
  ghost predicate Honest(w: World) {
    && (forall a :: a in w.t.assignments && a.acknowledged ==> a.assignmentId in w.executed)
    && w.acks <= w.executed
    && (forall n, id :: n in w.agents && id in w.agents[n].completed ==> id in w.executed)
  }

  /** Every poll of its node returns `a`. */
  ghost predicate Offered(w: World, a: Assignment) { a in PendingAssignments(w.t, a.nodeId) }

  /** The tables of `v` hold the rows of `u` and possibly new ones; only acknowledged rows may go. */
  ghost predicate KeepsPending(u: Tables, v: Tables) {
    forall a :: a in u.assignments && !a.acknowledged ==> a in v.assignments
  }

  ghost predicate NoNewAcks(u: Tables, v: Tables) {
    forall a :: a in v.assignments && a.acknowledged ==> a in u.assignments
  }

  /** The node of `a` is not removed. */
  ghost function NodeStays(a: Assignment): (World, Event) -> bool {
    (w: World, e: Event) => e != Leave(a.nodeId)
  }

  /** Nor does an acknowledgement of `a` arrive. */
  ghost function Unacknowledged(a: Assignment): (World, Event) -> bool {
    (w: World, e: Event) => e != Leave(a.nodeId) && e != DeliverAck(a.assignmentId)
  }

  lemma AssignKeepsPending(t: Tables, n: Id, action: Action, d: Id, c: Id, service: string, work: Workload, now: Time)
    ensures KeepsPending(t, CreateAssignment(t, n, action, d, c, service, work, now))
    ensures NoNewAcks(t, CreateAssignment(t, n, action, d, c, service, work, now))
  {
  }

  lemma AdvanceKeepsPending(c: Config)
    requires c.pass.Busy?
    ensures KeepsPending(c.t, Advance(c).t) && NoNewAcks(c.t, Advance(c).t)
  {
    hide Scheduling.Choose, HasPendingStop, Victims, Registered, KeepsPending, NoNewAcks;
    var t, p := c.t, c.pass;
    match p.stage
    case Placing(d, left, _, _) =>
      if left != 0 && Scheduling.Choose(t, d.work).Placed? {
        var n := Scheduling.Choose(t, d.work).decision.node.nodeId;
        AssignKeepsPending(t, n, Create, d.deploymentId, "", d.serviceName, d.work, p.now);
        SameAssignments(CreateAssignment(t, n, Create, d.deploymentId, "", d.serviceName, d.work, p.now),
                        Advance(c).t, t);
      } else {
        SameAssignments(t, Advance(c).t, t);
      }
    case Stopping(d, victims, _, _) =>
      SameAssignments(t, t, t);
      if victims != [] {
        var v := victims[0];
        AssignKeepsPending(t, v.nodeId, Stop, d.deploymentId, v.containerId, d.serviceName, NO_WORKLOAD, p.now);
      }
    case Reaping(rows, live) =>
      SameAssignments(t, t, t);
      if rows == [] {
        ClearKeepsPending(t, p.now);
      } else {
        AssignKeepsPending(t, rows[0].nodeId, Stop, "", rows[0].containerId, rows[0].serviceName, NO_WORKLOAD, p.now);
      }
    case _ => SameAssignments(t, Advance(c).t, t);
  }

  lemma SameAssignments(t: Tables, u: Tables, base: Tables)
    requires u.assignments == t.assignments
    ensures KeepsPending(base, t) ==> KeepsPending(base, u)
    ensures NoNewAcks(base, t) ==> NoNewAcks(base, u)
    ensures t == base ==> KeepsPending(base, u) && NoNewAcks(base, u)
  {
  }

  lemma ClearKeepsPending(t: Tables, now: Time)
    ensures KeepsPending(t, ClearOldAssignments(t, now)) && NoNewAcks(t, ClearOldAssignments(t, now))
  {
    var cutoff := now - ASSIGNMENT_RETENTION;
    forall a | a in t.assignments && !a.acknowledged ensures a in ClearOldAssignments(t, now).assignments {
      assert RetainedSince(cutoff)(a);
    }
  }

  lemma HonestStep(w: World, e: Event)
    requires Honest(w) && Enabled(w, e)
    ensures Honest(Apply(w, e))
    ensures w.executed <= Apply(w, e).executed
  {
    var v := Apply(w, e);
    match e
    case AdvancePass =>
      AdvanceKeepsPending(Config(w.t, w.pass));
    case DeliverAck(id) =>
      forall a | a in v.t.assignments && a.acknowledged ensures a.assignmentId in v.executed {
        var i :| 0 <= i < |v.t.assignments| && v.t.assignments[i] == a;
        assert w.t.assignments[i] in w.t.assignments;
        assert a == Acknowledging(id)(w.t.assignments[i]);
      }
    case _ =>
  }

  /** Only the removal of its node or its acknowledgement withdraws a pending assignment. */
  lemma OfferedStep(w: World, e: Event, a: Assignment)
    requires Enabled(w, e) && Offered(w, a)
    requires e != Leave(a.nodeId) && e != DeliverAck(a.assignmentId)
    ensures Offered(Apply(w, e), a)
  {
    var v := Apply(w, e);
    assert a in w.t.assignments && PendingOn(a.nodeId)(a);
    assert a in v.t.assignments by {
      match e
      case AdvancePass =>
        AdvanceKeepsPending(Config(w.t, w.pass));
      case DeliverAck(id) =>
        var i :| 0 <= i < |w.t.assignments| && w.t.assignments[i] == a;
        assert v.t.assignments[i] == Acknowledging(id)(a);
      case Leave(n) =>
        assert AssignmentElsewhere(n)(a);
      case _ =>
    }
  }

  /**
   From any state, in every run in which its node stays and no acknowledgement of it
   arrives: a pending assignment is still returned by every poll, executed or not.
   */
  lemma {:induction false} OfferedUntilAcknowledged(w: World, es: seq<Event>, a: Assignment)
    requires Offered(w, a) && Legal(w, es, Unacknowledged(a))
    ensures Offered(Play(w, es, Unacknowledged(a)), a)
  {
    hide Apply, Enabled;
    var inv := (v: World) => Offered(v, a);
    forall v: World, e: Event | inv(v) && Enabled(v, e) && Unacknowledged(a)(v, e) ensures inv(Apply(v, e)) {
      OfferedStep(v, e, a);
    }
    RunInduction(w, es, Unacknowledged(a), inv);
  }

  /** Every row of an initial or later table that is acknowledged has been executed. */
  lemma AckedWasExecuted(w: World, es: seq<Event>, permitted: (World, Event) -> bool)
    requires Initial(w) && Legal(w, es, permitted)
    ensures Honest(Play(w, es, permitted))
  {
    hide Apply, Enabled;
    forall v: World, e: Event | Honest(v) && Enabled(v, e) && permitted(v, e) ensures Honest(Apply(v, e)) {
      HonestStep(v, e);
    }
    RunInduction(w, es, permitted, Honest);
  }

  lemma {:induction false} ExecutedStays(w: World, es: seq<Event>, permitted: (World, Event) -> bool, id: nat)
    requires Honest(w) && Legal(w, es, permitted) && id in w.executed
    ensures id in Play(w, es, permitted).executed
    decreases |es|
  {
    hide Apply, Enabled, Honest;
    if es != [] {
      HonestStep(w, es[0]);
      ExecutedStays(Apply(w, es[0]), es[1..], permitted, id);
    }
  }

  /**
   From any honest state, in every run in which its node stays: a pending assignment is
   still offered, or its acknowledgement has arrived and it has been executed.
   */
  lemma {:induction false} NoAssignmentIsLost(w: World, es: seq<Event>, a: Assignment)
    requires Honest(w) && Offered(w, a) && Legal(w, es, NodeStays(a))
    ensures var v := Play(w, es, NodeStays(a));
      Offered(v, a) || (DeliverAck(a.assignmentId) in es && a.assignmentId in v.executed)
    decreases |es|
  {
    hide Apply, Enabled, Offered, Honest;
    if es != [] {
      var e := es[0];
      assert NodeStays(a)(w, e) && es == [e] + es[1..];
      HonestStep(w, e);
      if e == DeliverAck(a.assignmentId) {
        AckComesAfterExecution(w, a.assignmentId);
        ExecutedStays(Apply(w, e), es[1..], NodeStays(a), a.assignmentId);
      } else {
        OfferedStep(w, e, a);
        NoAssignmentIsLost(Apply(w, e), es[1..], a);
      }
    }
  }

  lemma AckComesAfterExecution(w: World, id: nat)
    requires Honest(w) && Enabled(w, DeliverAck(id))
    ensures id in Apply(w, DeliverAck(id)).executed
  {
  }

  /** Rows with this id, which was given out before `base`, are acknowledged rows of `base`. */
  ghost predicate OnlyAcked(base: Tables, t: Tables, id: nat) {
    && id < base.nextId <= t.nextId
    && forall a :: a in t.assignments && a.assignmentId == id ==> a.acknowledged && a in base.assignments
  }

  lemma OnlyAckedStep(base: Tables, w: World, e: Event, id: nat)
    requires Enabled(w, e) && OnlyAcked(base, w.t, id)
    ensures OnlyAcked(base, Apply(w, e).t, id)
  {
    var v := Apply(w, e);
    match e
    case AdvancePass =>
      AdvanceAddsOnlyFresh(Config(w.t, w.pass));
    case DeliverAck(i) =>
      forall a | a in v.t.assignments && a.assignmentId == id ensures a.acknowledged && a in base.assignments {
        var k :| 0 <= k < |v.t.assignments| && v.t.assignments[k] == a;
        assert w.t.assignments[k] in w.t.assignments;
        assert a == Acknowledging(i)(w.t.assignments[k]);
      }
    case _ =>
  }

  /**
   In every run an acknowledgement is never undone: whatever row carries the id later is the
   acknowledged row itself, so that the id is not given out again either.
   */
  lemma AckIsNeverUndone(w: World, es: seq<Event>, permitted: (World, Event) -> bool, id: nat)
    requires Legal(w, es, permitted) && id < w.t.nextId
    requires forall a :: a in w.t.assignments && a.assignmentId == id ==> a.acknowledged
    ensures forall a :: a in Play(w, es, permitted).t.assignments && a.assignmentId == id ==>
      a.acknowledged && a in w.t.assignments
  {
    hide Apply, Enabled;
    var inv := (v: World) => OnlyAcked(w.t, v.t, id);
    forall v: World, e: Event | inv(v) && Enabled(v, e) && permitted(v, e) ensures inv(Apply(v, e)) {
      OnlyAckedStep(w.t, v, e, id);
    }
    RunInduction(w, es, permitted, inv);
  }

  lemma AdvanceAddsOnlyFresh(c: Config)
    requires c.pass.Busy?
    ensures forall a :: a in Advance(c).t.assignments ==> a in c.t.assignments || a.assignmentId == c.t.nextId
    ensures c.t.nextId <= Advance(c).t.nextId
  {
    hide Scheduling.Choose, HasPendingStop, Victims, Registered;
  }
}
