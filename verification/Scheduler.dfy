/**
 The scheduler: spread placement by free resources.
 */
module Scheduling {
  import opened Seqs
  import opened Tables
  import opened StateStore

  datatype Decision = Decision(node: NodeInfo, score: real)

  datatype Scheduled = Placed(decision: Decision) | NoHealthyNodes | NoCapacity

  function Fits(work: Workload): NodeInfo -> bool {
    (n: NodeInfo) => n.CpuAvailable() >= work.cpu && n.MemoryAvailable() >= work.memory
  }

  function WorkerFits(work: Workload): NodeInfo -> bool {
    (n: NodeInfo) => !n.role.Master? && n.CpuAvailable() >= work.cpu && n.MemoryAvailable() >= work.memory
  }

  function AtLeastOne(x: int): int { if x > 1 then x else 1 }

  function Score(t: Tables, n: NodeInfo): real {
    var cpuScore := n.CpuAvailable() as real / AtLeastOne(n.cpuTotal) as real * 100.0;
    var memoryScore := n.MemoryAvailable() as real / AtLeastOne(n.memoryTotal) as real * 100.0;
    var free := cpuScore * 0.4 + memoryScore * 0.4;
    var withRole := if n.role.Master? then free - 20.0 else free;
    var score := withRole - Count(t.containers, RunningOn(n.nodeId)) as real * 2.0;
    if score > 0.0 then score else 0.0
  }

  function Scored(t: Tables): NodeInfo -> Decision { (n: NodeInfo) => Decision(n, Score(t, n)) }

  function ScoreOf(): Decision -> real { (d: Decision) => d.score }

  /** The healthy workers with room; when there is none, every healthy node with room. */
  function Eligible(t: Tables, work: Workload): seq<NodeInfo> {
    var healthy := Filter(t.nodes, IsHealthy());
    var workers := Filter(healthy, WorkerFits(work));
    if workers != [] then workers else Filter(healthy, Fits(work))
  }

  function Choose(t: Tables, work: Workload): Scheduled {
    if Filter(t.nodes, IsHealthy()) == [] then NoHealthyNodes
    else if Eligible(t, work) == [] then NoCapacity
    else
      SortDescSorts(Map(Eligible(t, work), Scored(t)), ScoreOf());
      Placed(SortDesc(Map(Eligible(t, work), Scored(t)), ScoreOf())[0])
  }

  // ---- What the choice is --------------------------------------------------

  lemma {:induction false} InsertHead<T>(r: seq<T>, x: T, key: T -> real)
    requires r != [] && Descending(r, key)
    ensures Insert(r, x, key)[0] == if key(r[0]) >= key(x) then r[0] else x
  {
    var n := |r| - 1;
    if key(r[n]) < key(x) && n > 0 {
      InsertHead(r[..n], x, key);
    }
  }

  predicate FirstLargest<T>(s: seq<T>, key: T -> real, i: nat) {
    && i < |s|
    && (forall j :: 0 <= j < i ==> key(s[j]) < key(s[i]))
    && (forall j :: 0 <= j < |s| ==> key(s[j]) <= key(s[i]))
  }

  lemma FirstLargestGrows<T>(s: seq<T>, key: T -> real, i: nat)
    requires s != [] && FirstLargest(s[..|s| - 1], key, i)
    ensures FirstLargest(s, key, if key(s[i]) >= key(s[|s| - 1]) then i else |s| - 1)
  {
    assert forall j :: 0 <= j < |s| - 1 ==> s[..|s| - 1][j] == s[j];
  }

  /** A stable descending sort puts the first of the largest in front. */
  lemma {:induction false} SortDescHead<T>(s: seq<T>, key: T -> real)
    requires s != []
    ensures |SortDesc(s, key)| == |s|
    ensures exists i: nat :: FirstLargest(s, key, i) && SortDesc(s, key)[0] == s[i]
  {
    var n := |s| - 1;
    var r := SortDesc(s[..n], key);
    assert SortDesc(s, key) == Insert(r, s[n], key);
    SortDescSorts(s[..n], key);
    if n == 0 {
      assert FirstLargest(s, key, 0);
    } else {
      SortDescHead(s[..n], key);
      var i: nat :| FirstLargest(s[..n], key, i) && r[0] == s[..n][i];
      FirstLargestGrows(s, key, i);
      InsertHead(r, s[n], key);
      hide SortDesc, Insert;
    }
  }

  lemma EligibleIff(t: Tables, work: Workload, m: NodeInfo)
    ensures m in Eligible(t, work) <==>
      && m in t.nodes && m.status.Healthy? && Fits(work)(m)
      && (m.role.Master? ==>
            forall w :: w in t.nodes && w.status.Healthy? && !w.role.Master? ==> !Fits(work)(w))
  {
    hide Score;
    var healthy := Filter(t.nodes, IsHealthy());
    var workers := Filter(healthy, WorkerFits(work));
    assert m in healthy <==> m in t.nodes && m.status.Healthy? by {
      assert IsHealthy()(m) <==> m.status.Healthy?;
    }
    assert WorkerFits(work)(m) <==> !m.role.Master? && Fits(work)(m);
    if workers == [] {
      forall w | w in t.nodes && w.status.Healthy? && !w.role.Master? ensures !Fits(work)(w) {
        assert IsHealthy()(w) && w in healthy;
        assert w !in workers && !WorkerFits(work)(w);
      }
    } else {
      var w := workers[0];
      assert w in workers && w in healthy;
      assert IsHealthy()(w) && WorkerFits(work)(w);
    }
  }

  /**
   A placement is on a healthy node with room, on a master only if no healthy worker
   has room, and among the candidates it is the first with the highest score.
   */
  lemma ChoiceIsBest(t: Tables, work: Workload)
    requires Choose(t, work).Placed?
    ensures var n := Choose(t, work).decision.node;
      && n in t.nodes && n.status.Healthy? && Fits(work)(n)
      && Choose(t, work).decision.score == Score(t, n)
      && (n.role.Master? ==>
            forall m :: m in t.nodes && m.status.Healthy? && !m.role.Master? ==> !Fits(work)(m))
      && (forall m :: m in t.nodes && m.status.Healthy? && Fits(work)(m) && (n.role.Master? || !m.role.Master?)
            ==> Score(t, m) <= Score(t, n))
      && (exists i :: 0 <= i < |Eligible(t, work)| && Eligible(t, work)[i] == n
            && forall j :: 0 <= j < i ==> Score(t, Eligible(t, work)[j]) < Score(t, n))
  {
    hide Score, SortDesc, Eligible;
    var es := Eligible(t, work);
    var ds := Map(es, Scored(t));
    SortDescHead(ds, ScoreOf());
    var i: nat :| FirstLargest(ds, ScoreOf(), i) && SortDesc(ds, ScoreOf())[0] == ds[i];
    var n := es[i];
    assert forall j :: 0 <= j < |es| ==> ScoreOf()(ds[j]) == Score(t, es[j]);
    EligibleIff(t, work, n);
    forall m | m in t.nodes && m.status.Healthy? && Fits(work)(m) && (n.role.Master? || !m.role.Master?)
      ensures Score(t, m) <= Score(t, n)
    {
      EligibleIff(t, work, m);
      var j :| 0 <= j < |es| && es[j] == m;
      assert ScoreOf()(ds[j]) <= ScoreOf()(ds[i]);
    }
  }

  /** Scheduling is refused exactly when no healthy node has room. */
  lemma RefusedIffNoRoom(t: Tables, work: Workload)
    ensures Choose(t, work).NoHealthyNodes? <==> forall n :: n in t.nodes ==> !n.status.Healthy?
    ensures !Choose(t, work).Placed? <==> forall n :: n in t.nodes && n.status.Healthy? ==> !Fits(work)(n)
  {
    hide Score;
    var healthy := Filter(t.nodes, IsHealthy());
    assert forall n :: n in healthy <==> n in t.nodes && IsHealthy()(n);
    if healthy != [] {
      assert healthy[0] in healthy;
    }
    var es := Eligible(t, work);
    if es != [] {
      EligibleIff(t, work, es[0]);
    }
    forall n | n in t.nodes && n.status.Healthy? && Fits(work)(n) ensures es != [] {
      if !n.role.Master? {
        EligibleIff(t, work, n);
      } else if forall w :: w in t.nodes && w.status.Healthy? && !w.role.Master? ==> !Fits(work)(w) {
        EligibleIff(t, work, n);
      } else {
        var w :| w in t.nodes && w.status.Healthy? && !w.role.Master? && Fits(work)(w);
        EligibleIff(t, work, w);
      }
    }
  }

  // ---- What the score is made of -------------------------------------------

  /** The free part of a resource, in points up to 100. */
  function Points(free: int, total: int): real { free as real / (if total < 1 then 1 else total) as real * 100.0 }

  function Running(t: Tables, n: NodeInfo): nat {
    |Filter(t.containers, (c: ContainerRecord) => c.nodeId == n.nodeId && c.status == ContainerStatus.Running)|
  }

  /** By how much `a` is worth more than `b`: 0.4 for each point, 20 for not being a master, 2 for each container. */
  function Advantage(t: Tables, a: NodeInfo, b: NodeInfo): real {
    (Points(a.CpuAvailable(), a.cpuTotal) - Points(b.CpuAvailable(), b.cpuTotal)) * 0.4
    + (Points(a.MemoryAvailable(), a.memoryTotal) - Points(b.MemoryAvailable(), b.memoryTotal)) * 0.4
    + (if b.role == Master then 20.0 else 0.0) - (if a.role == Master then 20.0 else 0.0)
    + (Running(t, b) - Running(t, a)) as real * 2.0
  }

  lemma RunningIsCounted(t: Tables, n: NodeInfo)
    ensures Running(t, n) == Count(t.containers, RunningOn(n.nodeId))
  {
    var p := (c: ContainerRecord) => c.nodeId == n.nodeId && c.status == ContainerStatus.Running;
    CountMono(t.containers, p, RunningOn(n.nodeId));
    CountMono(t.containers, RunningOn(n.nodeId), p);
    assert |Filter(t.containers, p)| == Count(t.containers, p);
  }

  /** Positive scores differ by exactly the advantage; a score of nothing is beaten by any advantage. */
  lemma ScoreDifference(t: Tables, a: NodeInfo, b: NodeInfo)
    requires Score(t, a) > 0.0
    ensures if Score(t, b) > 0.0 then Score(t, a) - Score(t, b) == Advantage(t, a, b)
            else Advantage(t, a, b) >= Score(t, a)
  {
    RunningIsCounted(t, a);
    RunningIsCounted(t, b);
    hide Running, Count;
  }

  /** A worker with everything free and no container running scores 80, and nothing scores more or below 0. */
  lemma ScoreBounds(t: Tables, n: NodeInfo)
    requires n.cpuTotal >= 1 && n.memoryTotal >= 1 && n.cpuUsed >= 0 && n.memoryUsed >= 0
    ensures 0.0 <= Score(t, n) <= 80.0
    ensures n.role == Worker && n.cpuUsed == 0 && n.memoryUsed == 0 && Running(t, n) == 0 ==> Score(t, n) == 80.0
  {
    RunningIsCounted(t, n);
    hide Running, Count;
    PointsBounds(n.CpuAvailable(), n.cpuTotal);
    PointsBounds(n.MemoryAvailable(), n.memoryTotal);
  }

  lemma PointsBounds(free: int, total: int)
    requires 0 <= free <= total && total >= 1
    ensures 0.0 <= Points(free, total) <= 100.0
    ensures free == total ==> Points(free, total) == 100.0
  {
    var q := free as real / total as real;
    assert q * total as real == free as real;
    assert q > 1.0 ==> q * total as real > total as real;
    assert q < 0.0 ==> q * total as real < 0.0;
  }

  /** Masters are candidates only where no worker is, so the 20 points never decide between the two. */
  lemma RoleNeverDecides(t: Tables, work: Workload, a: NodeInfo, b: NodeInfo)
    requires a in Eligible(t, work) && b in Eligible(t, work)
    ensures a.role.Master? <==> b.role.Master?
  {
    EligibleIff(t, work, a);
    EligibleIff(t, work, b);
  }

  /** No candidate has an advantage over the node chosen, as long as that one scores at all. */
  lemma NobodyHasAnAdvantage(t: Tables, work: Workload, m: NodeInfo)
    requires Choose(t, work).Placed? && m in Eligible(t, work)
    ensures Choose(t, work).decision.score > 0.0 ==> Advantage(t, Choose(t, work).decision.node, m) >= 0.0
    ensures Choose(t, work).decision.score == 0.0 ==> Score(t, m) == 0.0
  {
    ChoiceIsBest(t, work);
    var n := Choose(t, work).decision.node;
    EligibleIff(t, work, m);
    assert Score(t, m) <= Score(t, n);
    hide Choose, Advantage, Eligible;
    if Score(t, n) > 0.0 {
      ScoreDifference(t, n, m);
    }
  }

  lemma BusierHasNone(t: Tables, a: NodeInfo, b: NodeInfo)
    requires a.cpuTotal == b.cpuTotal && a.CpuAvailable() == b.CpuAvailable()
    requires a.memoryTotal == b.memoryTotal && a.MemoryAvailable() == b.MemoryAvailable()
    requires a.role == b.role && Running(t, a) < Running(t, b)
    ensures Advantage(t, b, a) < 0.0
  {
    hide Running;
  }

  /** Of two candidates alike but for what runs on them the busier one is not chosen while the other scores. */
  lemma BusierIsNotChosen(t: Tables, work: Workload, a: NodeInfo, b: NodeInfo)
    requires Choose(t, work).Placed? && a in Eligible(t, work) && Score(t, a) > 0.0
    requires a.cpuTotal == b.cpuTotal && a.CpuAvailable() == b.CpuAvailable()
    requires a.memoryTotal == b.memoryTotal && a.MemoryAvailable() == b.MemoryAvailable()
    requires a.role == b.role && Running(t, a) < Running(t, b)
    ensures Choose(t, work).decision.node != b
  {
    NobodyHasAnAdvantage(t, work, a);
    BusierHasNone(t, a, b);
    ChoiceIsBest(t, work);
    assert Choose(t, work).decision.score >= 0.0;
    hide Choose, Advantage, Score;
  }

  // ---- The scheduler -------------------------------------------------------

  class Scheduler {
    const store: ClusterState

    constructor (store: ClusterState)
      ensures this.store == store
    {
      this.store := store;
    }

    /** The filter step: workers with room, else any node with room. */
    method Candidates(healthy: seq<NodeInfo>, work: Workload) returns (eligible: seq<NodeInfo>)
      ensures eligible ==
        if Filter(healthy, WorkerFits(work)) != [] then Filter(healthy, WorkerFits(work))
        else Filter(healthy, Fits(work))
    {
      hide Filter;
      FilterWhole(healthy, WorkerFits(work));
      FilterWhole(healthy, Fits(work));
      eligible := [];
      for i := 0 to |healthy|
        invariant eligible == Filter(healthy[..i], WorkerFits(work))
      {
        FilterNext(healthy, i, WorkerFits(work));
        if healthy[i].role.Master? {
          continue;
        }
        if healthy[i].CpuAvailable() >= work.cpu && healthy[i].MemoryAvailable() >= work.memory {
          eligible := eligible + [healthy[i]];
        }
      }
      if eligible == [] {
        for i := 0 to |healthy|
          invariant eligible == Filter(healthy[..i], Fits(work))
        {
          FilterNext(healthy, i, Fits(work));
          if healthy[i].CpuAvailable() >= work.cpu && healthy[i].MemoryAvailable() >= work.memory {
            eligible := eligible + [healthy[i]];
          }
        }
      }
    }

    /** The score step. */
    method ScoreAll(eligible: seq<NodeInfo>) returns (scored: seq<Decision>)
      ensures scored == Map(eligible, Scored(store.Rows()))
    {
      scored := [];
      for i := 0 to |eligible|
        invariant |scored| == i
        invariant forall j :: 0 <= j < i ==> scored[j] == Scored(store.Rows())(eligible[j])
      {
        scored := scored + [Decision(eligible[i], Score(store.Rows(), eligible[i]))];
      }
    }

    method Schedule(work: Workload) returns (result: Scheduled)
      ensures result == Choose(store.Rows(), work)
      ensures result.Placed? && result.decision.score > 0.0 ==>
        forall m :: m in Eligible(store.Rows(), work) ==> Advantage(store.Rows(), result.decision.node, m) >= 0.0
    {
      var healthy := store.GetHealthyNodes();
      if healthy == [] {
        return NoHealthyNodes;
      }
      var eligible := Candidates(healthy, work);
      if eligible == [] {
        return NoCapacity;
      }
      var scored := ScoreAll(eligible);
      SortDescSorts(scored, ScoreOf());
      scored := SortDesc(scored, ScoreOf());
      result := Placed(scored[0]);
      forall m | m in Eligible(store.Rows(), work) && result.decision.score > 0.0
        ensures Advantage(store.Rows(), result.decision.node, m) >= 0.0
      {
        NobodyHasAnAdvantage(store.Rows(), work, m);
      }
    }
  }
}
