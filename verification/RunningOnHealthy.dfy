/**
 Safety of failure handling: whatever comes in between the transactions of a pass,
 a container marked running or starting is on a registered node that is healthy, or that
 the pass under way has found stale and has not dealt with yet, or that a pass which died
 of an exception has marked and left, and that has not been heard of since.
 */
module RunningOnHealthy {
  import opened Seqs
  import opened Tables
  import opened StateStore
  import opened Reconciliation
  import opened PassMachine
  import opened ClusterProtocol
  import opened Runs
  import Scheduling
  import PassIdempotence

  /** The stages of finding stale nodes and marking their containers lost. */
  predicate Early(p: PassState) {
    p.Busy? && (p.stage.Marking? || p.stage.Failing? || p.stage.Losing?)
  }

  /** The stale nodes the pass under way has still on its list. */
  function Listed(p: PassState): set<Id> {
    if !Early(p) then {}
    else match p.stage
      case Marking(_, unhealthy) => set n | n in unhealthy
      case Failing(nodes) => set n | n in nodes
      case Losing(rows, nodes) => (set n | n in nodes) + (set r | r in rows :: r.nodeId)
      case _ => {}
  }

  /**
   What the events of a run tell, without a look at any node's health: the nodes whose row the
   latest pass has marked, and the stranded ones; of neither has anything been heard since.
   */
  datatype Trace = Trace(marked: set<Id>, stranded: set<Id>)
  {
    function Heard(n: Id): Trace { Trace(marked - {n}, stranded - {n}) }

    /** Stranded, or marked by the pass under way and still on its list. */
    function Ill(p: PassState): set<Id> { stranded + marked * Listed(p) }
  }

  const NOTHING_YET := Trace({}, {})

  function Following(w: World, e: Event, x: Trace): Trace {
    match e
    case BeginPass(_, _) => x.(marked := {})
    case AdvancePass =>
      if w.pass.Busy? && w.pass.stage.Marking? && w.pass.stage.ids != [] && Registered(w.t, w.pass.stage.ids[0])
      then x.(marked := x.marked + {w.pass.stage.ids[0]})
      else x
    case AbortPass => Trace({}, x.Ill(w.pass))
    case DeliverReport(r, _) => x.Heard(r.node)
    case Join(n, _, _, _, _) => x.Heard(n)
    case Leave(n) => x.Heard(n)
    case _ => x
  }

  ghost function TraceAfter(w: World, es: seq<Event>, permitted: (World, Event) -> bool, x: Trace): Trace
    requires Legal(w, es, permitted)
    decreases |es|
  {
    if es == [] then x else TraceAfter(Apply(w, es[0]), es[1..], permitted, Following(w, es[0], x))
  }

  /** The nodes on the pass's list that are no longer healthy. */
  function MarkedOf(t: Tables, p: PassState): set<Id> {
    set n | n in Listed(p) && Registered(t, n) && !RegisteredHealthy(t, n)
  }

  /** The list holds nodes that were healthy when they were found stale: only those marked since are not. */
  ghost predicate Followed(w: World, marked: set<Id>) {
    forall n :: n in Listed(w.pass) ==> (n in marked <==> Registered(w.t, n) && !RegisteredHealthy(w.t, n))
  }

  /** What the pass under way is still going to mark lost. */
  ghost predicate Excused(p: PassState, c: ContainerRecord) {
    Early(p) && match p.stage
      case Marking(_, unhealthy) => c.nodeId in unhealthy
      case Failing(nodes) => c.nodeId in nodes
      case Losing(rows, nodes) =>
        || c.nodeId in nodes
        || exists r :: r in rows && r.containerId == c.containerId && r.nodeId == c.nodeId && r.IsActive()
      case _ => false
  }

  ghost predicate Placed(t: Tables, p: PassState, s: set<Id>, c: ContainerRecord) {
    c.IsActive() ==> Registered(t, c.nodeId) && (RegisteredHealthy(t, c.nodeId) || Excused(p, c) || c.nodeId in s)
  }

  ghost function Sound(s: set<Id>): World -> bool {
    (w: World) =>
      && (forall c :: c in w.t.containers ==> Placed(w.t, w.pass, s, c))
      && (forall n :: n in s ==> Registered(w.t, n) && !RegisteredHealthy(w.t, n))
      && (w.pass.Busy? && w.pass.stage.Marking? ==>
            forall n :: n in w.pass.stage.ids ==> n in w.pass.stage.unhealthy)
  }

  /** Node updates that lose no node and no health keep every container in place. */
  lemma NodesKeepPlaced(t: Tables, p: PassState, s: set<Id>, f: NodeInfo -> NodeInfo, c: ContainerRecord)
    requires Placed(t, p, s, c)
    requires forall n :: n in t.nodes ==> f(n).nodeId == n.nodeId
    requires forall n :: n in t.nodes && n.status.Healthy? ==> f(n).status.Healthy?
    ensures Placed(t.(nodes := Map(t.nodes, f)), p, s, c)
  {
    var u := t.(nodes := Map(t.nodes, f));
    assert forall i :: 0 <= i < |t.nodes| ==> u.nodes[i] == f(t.nodes[i]) && t.nodes[i] in t.nodes;
    if c.IsActive() {
      var i :| 0 <= i < |t.nodes| && t.nodes[i].nodeId == c.nodeId;
      assert u.nodes[i].nodeId == c.nodeId;
      if RegisteredHealthy(t, c.nodeId) {
        var j :| 0 <= j < |t.nodes| && t.nodes[j].nodeId == c.nodeId && t.nodes[j].status.Healthy?;
        assert u.nodes[j].nodeId == c.nodeId && u.nodes[j].status.Healthy?;
      }
    }
  }

  lemma MarkingStep(w: World, s: set<Id>)
    requires Sound(s)(w) && w.pass.Busy? && w.pass.stage.Marking?
    ensures Sound(s)(Apply(w, AdvancePass))
  {
    var t := w.t;
    var ids, unhealthy := w.pass.stage.ids, w.pass.stage.unhealthy;
    if ids != [] {
      var u := MarkNodeUnhealthy(t, ids[0]);
      assert forall i :: 0 <= i < |t.nodes| ==> u.nodes[i] == MarkedUnhealthy(ids[0])(t.nodes[i]);
      assert ids[0] in ids;
      forall c | c in t.containers && c.IsActive()
        ensures Registered(u, c.nodeId)
        ensures RegisteredHealthy(u, c.nodeId) || c.nodeId in unhealthy || c.nodeId in s
      {
        assert Placed(t, w.pass, s, c);
        var i :| 0 <= i < |t.nodes| && t.nodes[i].nodeId == c.nodeId;
        assert u.nodes[i].nodeId == c.nodeId;
        if RegisteredHealthy(t, c.nodeId) && c.nodeId != ids[0] {
          var j :| 0 <= j < |t.nodes| && t.nodes[j].nodeId == c.nodeId && t.nodes[j].status.Healthy?;
          assert u.nodes[j] == t.nodes[j];
        }
      }
      forall c | c in t.containers ensures Placed(u, w.pass.At(Marking(ids[1..], unhealthy)), s, c) {
      }
    }
  }

  lemma {:induction false} FailingStep(w: World, s: set<Id>)
    requires Sound(s)(w) && w.pass.Busy? && w.pass.stage.Failing?
    ensures Sound(s)(Apply(w, AdvancePass))
  {
    var t, nodes := w.t, w.pass.stage.nodes;
    if nodes != [] {
      var rows := Filter(t.containers, OnNode(nodes[0]));
      forall c | c in t.containers ensures Placed(t, w.pass.At(Losing(rows, nodes[1..])), s, c) {
        assert Placed(t, w.pass, s, c);
        if c.IsActive() && c.nodeId == nodes[0] {
          assert OnNode(nodes[0])(c) && c in rows;
        }
      }
    } else {
      forall c | c in t.containers ensures Placed(t, w.pass.At(Listing(t.containers)), s, c) {
        assert Placed(t, w.pass, s, c);
      }
    }
  }

  lemma LosingStep(w: World, s: set<Id>)
    requires Sound(s)(w) && w.pass.Busy? && w.pass.stage.Losing?
    ensures Sound(s)(Apply(w, AdvancePass))
  {
    var t, rows, nodes := w.t, w.pass.stage.rows, w.pass.stage.nodes;
    if rows == [] {
      forall c | c in t.containers ensures Placed(t, w.pass.At(Failing(nodes)), s, c) {
        assert Placed(t, w.pass, s, c);
      }
    } else {
      var u := LoseRow(t, rows[0]);
      var p := w.pass.At(Losing(rows[1..], nodes));
      assert rows == [rows[0]] + rows[1..];
      forall c | c in u.containers ensures Placed(u, p, s, c) {
        var i :| 0 <= i < |u.containers| && u.containers[i] == c;
        var b := t.containers[i];
        assert b in t.containers && Placed(t, w.pass, s, b);
        if c.IsActive() {
          assert c == b;
          assert RegisteredHealthy(u, c.nodeId) <==> RegisteredHealthy(t, c.nodeId);
        }
      }
    }
  }

  lemma {:induction false} LaterStep(w: World, s: set<Id>)
    requires Sound(s)(w) && w.pass.Busy?
    requires !(w.pass.stage.Marking? || w.pass.stage.Failing? || w.pass.stage.Losing?)
    ensures Sound(s)(Apply(w, AdvancePass))
  {
    hide Scheduling.Choose, HasPendingStop, Victims;
    var t, p := w.t, w.pass;
    var v := Apply(w, AdvancePass);
    assert v.t.containers == t.containers;
    if p.stage.Placing? && p.stage.left != 0 && Scheduling.Choose(t, p.stage.d.work).Placed? {
      var d := p.stage.d;
      var n := Scheduling.Choose(t, d.work).decision.node.nodeId;
      var u := CreateAssignment(t, n, Create, d.deploymentId, "", d.serviceName, d.work, p.now);
      forall c | c in t.containers ensures Placed(v.t, v.pass, s, c) {
        assert Placed(t, p, s, c) && Placed(u, p, s, c);
        NodesKeepPlaced(u, p, s, Reserving(n, d.work.cpu, d.work.memory), c);
      }
    } else {
      assert v.t.nodes == t.nodes;
      forall c | c in t.containers ensures Placed(v.t, v.pass, s, c) {
        assert Placed(t, p, s, c);
        assert RegisteredHealthy(v.t, c.nodeId) <==> RegisteredHealthy(t, c.nodeId);
      }
    }
  }

  lemma BeginStep(w: World, s: set<Id>, now: Time, tick: nat)
    requires Sound(s)(w) && w.pass.Idle?
    ensures Sound(s)(Apply(w, BeginPass(now, tick)))
  {
    hide StaleNodes;
    var v := Apply(w, BeginPass(now, tick));
    forall c | c in w.t.containers ensures Placed(v.t, v.pass, s, c) {
      assert Placed(w.t, w.pass, s, c);
      NodesKeepPlaced(w.t, w.pass, s, MasterBeating(w.master, now), c);
    }
  }

  lemma ReportHeals(t: Tables, n: Id, rows: seq<ContainerRecord>, cpu: int, memory: int, now: Time)
    requires Registered(t, n)
    ensures var u := UpdateHeartbeat(t, n, rows, cpu, memory, now);
      && RegisteredHealthy(u, n)
      && (forall m :: Registered(u, m) <==> Registered(t, m))
      && (forall m :: m != n ==> (RegisteredHealthy(u, m) <==> RegisteredHealthy(t, m)))
  {
    var u := UpdateHeartbeat(t, n, rows, cpu, memory, now);
    hide InsertReported;
    var f := Beating(n, cpu, memory, now);
    assert forall i :: 0 <= i < |t.nodes| ==> u.nodes[i] == f(t.nodes[i]);
    var i :| 0 <= i < |t.nodes| && t.nodes[i].nodeId == n;
    assert u.nodes[i].nodeId == n && u.nodes[i].status.Healthy?;
    forall m ensures Registered(u, m) <==> Registered(t, m) {
      assert forall j :: 0 <= j < |t.nodes| ==> u.nodes[j].nodeId == t.nodes[j].nodeId;
    }
    forall m | m != n ensures RegisteredHealthy(u, m) <==> RegisteredHealthy(t, m) {
      assert forall j :: 0 <= j < |t.nodes| && t.nodes[j].nodeId == m ==> u.nodes[j] == t.nodes[j];
    }
  }

  lemma {:induction false} ReportStep(w: World, s: set<Id>, r: Report, now: Time)
    requires Sound(s)(w) && r in w.reports
    ensures Sound(s - {r.node})(Apply(w, DeliverReport(r, now)))
  {
    var t, n := w.t, r.node;
    var v := Apply(w, DeliverReport(r, now));
    if Registered(t, n) {
      ReportHeals(t, n, r.rows, r.cpu, r.memory, now);
      hide Registered, RegisteredHealthy;
      forall c | c in v.t.containers ensures Placed(v.t, v.pass, s - {n}, c) {
        InsertReportedOrigin(Filter(t.containers, NotOnNode(n)), r.rows, n, c);
        if c.nodeId != n {
          assert c in t.containers && Placed(t, w.pass, s, c);
        }
      }
    }
  }

  lemma JoinLeavesOthers(t: Tables, n: Id, address: string, cpu: int, memory: int, now: Time, m: Id)
    requires m != n
    ensures var u := RegisterNode(t, n, address, Worker, cpu, memory, now);
      (Registered(u, m), RegisteredHealthy(u, m)) == (Registered(t, m), RegisteredHealthy(t, m))
  {
    var u := RegisterNode(t, n, address, Worker, cpu, memory, now);
    assert |t.nodes| <= |u.nodes|;
    forall i | 0 <= i < |t.nodes| && (t.nodes[i].nodeId == m || u.nodes[i].nodeId == m)
      ensures u.nodes[i] == t.nodes[i]
    {
      assert Registered(t, n) ==> u.nodes[i] == Rejoined(n, address, cpu, memory, now)(t.nodes[i]);
    }
    assert forall i :: |t.nodes| <= i < |u.nodes| ==> u.nodes[i].nodeId == n;
  }

  lemma LeaveLeavesOthers(t: Tables, n: Id, m: Id)
    requires m != n
    ensures var u := RemoveNode(t, n);
      (Registered(u, m), RegisteredHealthy(u, m)) == (Registered(t, m), RegisteredHealthy(t, m))
  {
    var u := RemoveNode(t, n);
    forall i | 0 <= i < |t.nodes| && t.nodes[i].nodeId == m ensures t.nodes[i] in u.nodes {
      assert OtherNode(n)(t.nodes[i]);
    }
    forall i | 0 <= i < |u.nodes| ensures u.nodes[i] in t.nodes {
    }
  }

  lemma JoinStep(w: World, s: set<Id>, n: Id, address: string, cpu: int, memory: int, now: Time)
    requires Sound(s)(w)
    ensures Sound(s - {n})(Apply(w, Join(n, address, cpu, memory, now)))
  {
    var t := w.t;
    var v := Apply(w, Join(n, address, cpu, memory, now));
    forall m | m in s - {n} ensures Registered(v.t, m) && !RegisteredHealthy(v.t, m) {
      JoinLeavesOthers(t, n, address, cpu, memory, now, m);
    }
    forall c | c in t.containers ensures Placed(v.t, v.pass, s, c) {
      assert Placed(t, w.pass, s, c);
      if Registered(t, n) {
        NodesKeepPlaced(t, w.pass, s, Rejoined(n, address, cpu, memory, now), c);
      } else if c.IsActive() {
        var i :| 0 <= i < |t.nodes| && t.nodes[i].nodeId == c.nodeId;
        assert v.t.nodes[i] == t.nodes[i];
        if RegisteredHealthy(t, c.nodeId) {
          var j :| 0 <= j < |t.nodes| && t.nodes[j].nodeId == c.nodeId && t.nodes[j].status.Healthy?;
          assert v.t.nodes[j] == t.nodes[j];
        }
      }
    }
  }

  lemma {:induction false} LeaveStep(w: World, s: set<Id>, n: Id)
    requires Sound(s)(w)
    ensures Sound(s - {n})(Apply(w, Leave(n)))
  {
    var t := w.t;
    var v := Apply(w, Leave(n));
    forall m | m in s - {n} ensures Registered(v.t, m) && !RegisteredHealthy(v.t, m) {
      LeaveLeavesOthers(t, n, m);
    }
    forall c | c in v.t.containers ensures Placed(v.t, v.pass, s, c) {
      assert c in t.containers && NotOnNode(n)(c) && Placed(t, w.pass, s, c);
      if c.IsActive() {
        var i :| 0 <= i < |t.nodes| && t.nodes[i].nodeId == c.nodeId;
        assert OtherNode(n)(t.nodes[i]) && t.nodes[i] in v.t.nodes;
        if RegisteredHealthy(t, c.nodeId) {
          var j :| 0 <= j < |t.nodes| && t.nodes[j].nodeId == c.nodeId && t.nodes[j].status.Healthy?;
          assert OtherNode(n)(t.nodes[j]) && t.nodes[j] in v.t.nodes;
        }
      }
    }
  }

  lemma SameNodesStep(w: World, s: set<Id>, e: Event)
    requires Sound(s)(w) && Enabled(w, e)
    requires Apply(w, e).t.nodes == w.t.nodes && Apply(w, e).t.containers == w.t.containers
    requires Apply(w, e).pass == w.pass
    ensures Sound(s)(Apply(w, e))
  {
    var v := Apply(w, e);
    SameNodes(w.t, v.t);
    forall c | c in w.t.containers ensures Placed(v.t, v.pass, s, c) {
      assert Placed(w.t, w.pass, s, c);
    }
  }

  lemma SameNodes(t: Tables, u: Tables)
    requires u.nodes == t.nodes
    ensures forall n :: Registered(u, n) <==> Registered(t, n)
    ensures forall n :: RegisteredHealthy(u, n) <==> RegisteredHealthy(t, n)
  {
  }

  lemma ExcusedIsListed(p: PassState, c: ContainerRecord)
    requires Excused(p, c)
    ensures c.nodeId in Listed(p)
  {
  }

  lemma {:induction false} AbortStep(w: World, s: set<Id>)
    requires Sound(s)(w) && w.pass.Busy?
    ensures Sound(s + MarkedOf(w.t, w.pass))(Apply(w, AbortPass))
  {
    var v := Apply(w, AbortPass);
    var s' := s + MarkedOf(w.t, w.pass);
    forall c | c in v.t.containers ensures Placed(v.t, v.pass, s', c) {
      assert Placed(w.t, w.pass, s, c);
      if Excused(w.pass, c) {
        ExcusedIsListed(w.pass, c);
      }
    }
  }

  // ---- The list of the pass under way ---------------------------------------

  lemma StaleAreHealthy(t: Tables, now: Time, n: Id)
    requires n in StaleNodes(t, now)
    ensures RegisteredHealthy(t, n)
  {
    var stale := Filter(t.nodes, StaleBefore(now - NODE_TIMEOUT));
    var i :| 0 <= i < |stale| && StaleNodes(t, now)[i] == n;
    assert stale[i] in stale && StaleBefore(now - NODE_TIMEOUT)(stale[i]);
    var j :| 0 <= j < |t.nodes| && t.nodes[j] == stale[i];
  }

  lemma MarkingMarks(t: Tables, n: Id, m: Id)
    ensures var u := MarkNodeUnhealthy(t, n);
      (Registered(u, m), RegisteredHealthy(u, m)) == (Registered(t, m), m != n && RegisteredHealthy(t, m))
  {
    var u := MarkNodeUnhealthy(t, n);
    assert forall i :: 0 <= i < |t.nodes| ==> u.nodes[i] == MarkedUnhealthy(n)(t.nodes[i]);
    assert forall i :: 0 <= i < |t.nodes| ==> u.nodes[i].nodeId == t.nodes[i].nodeId;
  }

  /** A step of the early stages: the list only shrinks, and only marking changes a node. */
  lemma EarlyShrinks(w: World)
    requires Early(w.pass)
    ensures Listed(Apply(w, AdvancePass).pass) <= Listed(w.pass)
    ensures !w.pass.stage.Marking? ==> Apply(w, AdvancePass).t.nodes == w.t.nodes
  {
    var p := w.pass;
    if p.stage.Failing? && p.stage.nodes != [] {
      var rows := Filter(w.t.containers, OnNode(p.stage.nodes[0]));
      assert forall r :: r in rows ==> OnNode(p.stage.nodes[0])(r);
    }
  }

  lemma LateListsNothing(w: World)
    requires w.pass.Busy? && !Early(w.pass)
    ensures Listed(Apply(w, AdvancePass).pass) == {}
  {
    hide Scheduling.Choose, HasPendingStop, Victims;
  }

  lemma {:induction false} AdvanceFollowed(w: World, x: Trace)
    requires Followed(w, x.marked) && w.pass.Busy?
    ensures Followed(Apply(w, AdvancePass), Following(w, AdvancePass, x).marked)
  {
    var v := Apply(w, AdvancePass);
    if !Early(w.pass) {
      LateListsNothing(w);
    } else {
      EarlyShrinks(w);
      if w.pass.stage.Marking? && w.pass.stage.ids != [] {
        assert v.t == MarkNodeUnhealthy(w.t, w.pass.stage.ids[0]);
        hide Registered, RegisteredHealthy, MarkNodeUnhealthy;
        forall n | n in Listed(v.pass)
          ensures n in Following(w, AdvancePass, x).marked <==> Registered(v.t, n) && !RegisteredHealthy(v.t, n)
        {
          MarkingMarks(w.t, w.pass.stage.ids[0], n);
        }
      } else {
        assert v.t.nodes == w.t.nodes;
        hide Advance, Listed;
        SameNodes(w.t, v.t);
      }
    }
  }

  lemma {:induction false} BeginFollowed(w: World, now: Time, tick: nat)
    requires w.pass.Idle?
    ensures Followed(Apply(w, BeginPass(now, tick)), {})
  {
    var v := Apply(w, BeginPass(now, tick));
    assert Listed(v.pass) == set n | n in StaleNodes(v.t, now);
    hide StaleNodes, RegisteredHealthy;
    forall n | n in Listed(v.pass) ensures RegisteredHealthy(v.t, n) {
      StaleAreHealthy(v.t, now, n);
    }
  }

  /** A join makes the node healthy, a removal takes it away. */
  lemma HeardOf(t: Tables, n: Id, address: string, cpu: int, memory: int, now: Time)
    ensures (RegisteredHealthy(RegisterNode(t, n, address, Worker, cpu, memory, now), n), Registered(RemoveNode(t, n), n))
         == (true, false)
  {
    var u := RegisterNode(t, n, address, Worker, cpu, memory, now);
    if i :| 0 <= i < |t.nodes| && t.nodes[i].nodeId == n {
      assert u.nodes[i] == Rejoined(n, address, cpu, memory, now)(t.nodes[i]);
    } else {
      assert u.nodes[|t.nodes|].nodeId == n;
    }
    forall x | x in RemoveNode(t, n).nodes ensures x.nodeId != n {
      assert OtherNode(n)(x);
    }
  }

  lemma {:induction false} HeardFollowed(w: World, x: Trace, e: Event, n: Id)
    requires Followed(w, x.marked) && Enabled(w, e)
    requires (e.Join? && n == e.node) || (e.Leave? && n == e.node) || (e.DeliverReport? && n == e.report.node)
    ensures Followed(Apply(w, e), x.Heard(n).marked)
  {
    var t, v := w.t, Apply(w, e);
    if e.DeliverReport? && Registered(t, n) {
      ReportHeals(t, n, e.report.rows, e.report.cpu, e.report.memory, e.now);
    }
    hide Registered, RegisteredHealthy, UpdateHeartbeat, Listed, RegisterNode, RemoveNode;
    forall m | m in Listed(v.pass)
      ensures m in x.Heard(n).marked <==> Registered(v.t, m) && !RegisteredHealthy(v.t, m)
    {
      if e.Join? {
        HeardOf(t, n, e.address, e.cpu, e.memory, e.now);
        if m != n { JoinLeavesOthers(t, n, e.address, e.cpu, e.memory, e.now, m); }
      } else if e.Leave? {
        HeardOf(t, n, "", 0, 0, 0.0);
        if m != n { LeaveLeavesOthers(t, n, m); }
      }
    }
  }

  lemma {:induction false} FollowedStep(w: World, x: Trace, e: Event)
    requires Followed(w, x.marked) && Enabled(w, e)
    ensures Followed(Apply(w, e), Following(w, e, x).marked)
  {
    hide Followed, Advance, Begin, UpdateHeartbeat;
    match e
    case BeginPass(now, tick) => BeginFollowed(w, now, tick);
    case AdvancePass => AdvanceFollowed(w, x);
    case Join(n, _, _, _, _) => HeardFollowed(w, x, e, n);
    case Leave(n) => HeardFollowed(w, x, e, n);
    case DeliverReport(r, _) => HeardFollowed(w, x, e, r.node);
    case _ => OtherFollowed(w, x, e);
  }

  lemma OtherFollowed(w: World, x: Trace, e: Event)
    requires Followed(w, x.marked) && Enabled(w, e)
    requires e.AbortPass?
      || (Following(w, e, x) == x && Apply(w, e).t.nodes == w.t.nodes && Apply(w, e).pass == w.pass)
    ensures Followed(Apply(w, e), Following(w, e, x).marked)
  {
    if !e.AbortPass? {
      hide Listed, Following, Apply, Registered, RegisteredHealthy;
      SameNodes(w.t, Apply(w, e).t);
    }
  }

  // ---- All runs --------------------------------------------------------------

  ghost predicate Traced(w: World, x: Trace) { Sound(x.stranded)(w) && Followed(w, x.marked) }

  lemma IllAreMarked(w: World, x: Trace)
    requires Followed(w, x.marked)
    ensures x.Ill(w.pass) == x.stranded + MarkedOf(w.t, w.pass)
  {
    assert x.marked * Listed(w.pass) == MarkedOf(w.t, w.pass);
  }

  lemma {:induction false} SoundStep(w: World, x: Trace, e: Event)
    requires Traced(w, x) && Enabled(w, e)
    ensures Traced(Apply(w, e), Following(w, e, x))
  {
    var s := x.stranded;
    FollowedStep(w, x, e);
    IllAreMarked(w, x);
    hide Sound, Advance, Begin, UpdateHeartbeat, MarkedOf, Followed;
    match e
    case BeginPass(now, tick) => BeginStep(w, s, now, tick);
    case AdvancePass =>
      if w.pass.stage.Marking? { MarkingStep(w, s); }
      else if w.pass.stage.Failing? { FailingStep(w, s); }
      else if w.pass.stage.Losing? { LosingStep(w, s); }
      else { LaterStep(w, s); }
    case AbortPass => AbortStep(w, s);
    case Join(n, address, cpu, memory, now) => JoinStep(w, s, n, address, cpu, memory, now);
    case Leave(n) => LeaveStep(w, s, n);
    case DeliverReport(r, now) => ReportStep(w, s, r, now);
    case _ => SameNodesStep(w, s, e);
  }

  lemma {:induction false} RunsStaySound(w: World, es: seq<Event>, permitted: (World, Event) -> bool, x: Trace)
    requires Traced(w, x) && Legal(w, es, permitted)
    ensures Traced(Play(w, es, permitted), TraceAfter(w, es, permitted, x))
    decreases |es|
  {
    hide Apply, Enabled, Traced, Following;
    if es != [] {
      SoundStep(w, x, es[0]);
      RunsStaySound(Apply(w, es[0]), es[1..], permitted, Following(w, es[0], x));
    }
  }

  /**
   In every run from the first start, whatever comes in between, and at every moment of a pass:
   an active container is on a registered node, and exactly those on the nodes that the trace
   names are not on healthy ones.
   */
  lemma ActiveContainersArePlaced(w: World, es: seq<Event>, permitted: (World, Event) -> bool)
    requires Initial(w) && Legal(w, es, permitted)
    ensures var v := Play(w, es, permitted);
      var ill := TraceAfter(w, es, permitted, NOTHING_YET).Ill(v.pass);
      && (forall c :: c in v.t.containers && c.IsActive() ==>
            Registered(v.t, c.nodeId) && (!RegisteredHealthy(v.t, c.nodeId) ==> c.nodeId in ill))
      && (forall n :: n in ill ==> Registered(v.t, n) && !RegisteredHealthy(v.t, n))
  {
    RunsStaySound(w, es, permitted, NOTHING_YET);
    var v := Play(w, es, permitted);
    var x := TraceAfter(w, es, permitted, NOTHING_YET);
    hide Play, Legal, TraceAfter;
    IllAreMarked(v, x);
    forall c | c in v.t.containers && c.IsActive()
      ensures Registered(v.t, c.nodeId) && (!RegisteredHealthy(v.t, c.nodeId) ==> c.nodeId in x.Ill(v.pass))
    {
      assert Placed(v.t, v.pass, x.stranded, c);
      if Excused(v.pass, c) {
        ExcusedIsListed(v.pass, c);
      }
    }
  }

  /** Once phase 2 of a pass is over, and between passes: exactly those on stranded nodes are not on healthy ones. */
  lemma {:induction false} UnhealthyIffStranded(w: World, es: seq<Event>, permitted: (World, Event) -> bool)
    requires Initial(w) && Legal(w, es, permitted) && !Early(Play(w, es, permitted).pass)
    ensures var v := Play(w, es, permitted);
      forall c :: c in v.t.containers && c.IsActive() ==>
        && Registered(v.t, c.nodeId)
        && (!RegisteredHealthy(v.t, c.nodeId) <==> c.nodeId in TraceAfter(w, es, permitted, NOTHING_YET).stranded)
  {
    ActiveContainersArePlaced(w, es, permitted);
    hide Play, Legal, TraceAfter;
  }

  // ---- Without an early abort ----------------------------------------------

  /** A pass may die of an exception, but not between finding a node stale and dealing with it. */
  ghost function NoEarlyAbort(): (World, Event) -> bool {
    (w: World, e: Event) => e.AbortPass? ==> !Early(w.pass)
  }

  lemma {:induction false} NothingStranded(w: World, es: seq<Event>, x: Trace)
    requires Legal(w, es, NoEarlyAbort()) && x.stranded == {}
    ensures TraceAfter(w, es, NoEarlyAbort(), x).stranded == {}
    decreases |es|
  {
    hide Apply, Enabled;
    if es != [] {
      assert NoEarlyAbort()(w, es[0]);
      assert Following(w, es[0], x).stranded == {};
      NothingStranded(Apply(w, es[0]), es[1..], Following(w, es[0], x));
    }
  }

  /**
   In every run from the first start without an early abort: once phase 2 of a pass is over,
   and between passes, every active container is on a registered healthy node.
   */
  lemma ActiveContainersAreOnHealthyNodes(w: World, es: seq<Event>)
    requires Initial(w) && Legal(w, es, NoEarlyAbort()) && !Early(Play(w, es, NoEarlyAbort()).pass)
    ensures var v := Play(w, es, NoEarlyAbort());
      forall c :: c in v.t.containers && c.IsActive() ==> RegisteredHealthy(v.t, c.nodeId)
  {
    NothingStranded(w, es, NOTHING_YET);
    UnhealthyIffStranded(w, es, NoEarlyAbort());
    hide Play, Legal, TraceAfter, Early;
  }

  // ---- What an early abort does --------------------------------------------

  /**
   After a run from the first start that has stranded nothing, an abort leaves an active container
   off the healthy nodes exactly when the pass has listed its node and marked it, has not finished
   with it, and nothing has been heard of the node since.
   */
  lemma {:induction false} AbortStrandsIff(w: World, es: seq<Event>, permitted: (World, Event) -> bool)
    requires Initial(w) && Legal(w, es, permitted) && Play(w, es, permitted).pass.Busy?
    requires TraceAfter(w, es, permitted, NOTHING_YET).stranded == {}
    ensures var v := Play(w, es, permitted);
      var x := TraceAfter(w, es, permitted, NOTHING_YET);
      (exists c :: c in v.t.containers && c.IsActive() && !RegisteredHealthy(Apply(v, AbortPass).t, c.nodeId))
      <==> (exists c :: c in v.t.containers && c.IsActive() && c.nodeId in x.marked && c.nodeId in Listed(v.pass))
  {
    ActiveContainersArePlaced(w, es, permitted);
    hide Play, Legal, TraceAfter;
  }
}
