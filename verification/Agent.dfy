/**
 The worker agent: the containers of its engine, its map from containers to
 deployments, and the two loops of its cycle.  Seen through the rows it reports, it
 does what the protocol says an engine does.
 */
module Agents {
  import opened Seqs
  import opened Tables
  import opened StateStore
  import opened ClusterProtocol
  import opened AgentRound

  datatype EngineContainer = EngineContainer(
    id: Id, config: ContainerConfig, status: ContainerStatus, startedAt: Time)

  datatype ContainerConfig = ContainerConfig(
    name: string, image: string, command: seq<string>, cpu: int, memory: int, env: map<string, string>)

  const DEFAULT_PATH := "/usr/local/sbin:/usr/local/bin:/usr/sbin:/usr/bin:/sbin:/bin"

  function IdOf(): EngineContainer -> Id { (c: EngineContainer) => c.id }

  function Elsewise(id: Id): EngineContainer -> bool {
    (c: EngineContainer) => !(c.id == id && c.status.Running?)
  }

  function HaltedIn(id: Id): EngineContainer -> EngineContainer {
    (c: EngineContainer) => if c.id == id && c.status.Running? then c.(status := Stopped) else c
  }

  function RunningCpu(): EngineContainer -> int { (c: EngineContainer) => if c.status.Running? then c.config.cpu else 0 }

  function RunningMemory(): EngineContainer -> int {
    (c: EngineContainer) => if c.status.Running? then c.config.memory else 0
  }

  /** A container as it is reported, with its deployment if the agent remembers it. */
  function Joined(n: Id, deployments: map<Id, Id>): EngineContainer -> ContainerRecord {
    (c: EngineContainer) =>
      ContainerRecord(c.id, n, if c.id in deployments then deployments[c.id] else "", c.config.name, c.status, c.startedAt)
  }

  /** The rows after a batch; entry by entry the outcome and the name given to a new container. */
  function RunOutcomes(
    rows: seq<ContainerRecord>, n: Id, batch: seq<Assignment>, outcomes: seq<Outcome>, names: seq<Id>, now: Time)
    : seq<ContainerRecord>
    requires |batch| == |outcomes| == |names|
    decreases |batch|
  {
    if batch == [] then rows
    else
      RunOutcomes(RunAssignment(rows, n, batch[0], outcomes[0], names[0], now),
                  n, batch[1..], outcomes[1..], names[1..], now)
  }

  /** The ids to acknowledge: of everything that did not raise. */
  function CompletedIds(batch: seq<Assignment>, outcomes: seq<Outcome>): seq<nat>
    requires |batch| == |outcomes|
    decreases |batch|
  {
    if batch == [] then []
    else
      (if Completes(batch[0], outcomes[0]) then [batch[0].assignmentId] else [])
      + CompletedIds(batch[1..], outcomes[1..])
  }

  ghost predicate RunningGone(cs: seq<EngineContainer>, was: seq<EngineContainer>, id: Id) {
    forall c :: c in cs <==> c in was && !(c.id == id && c.status == Running)
  }

  predicate RunningHalted(cs: seq<EngineContainer>, was: seq<EngineContainer>, id: Id) {
    && |cs| == |was|
    && forall i :: 0 <= i < |was| ==>
         cs[i] == if was[i].id == id && was[i].status == Running then was[i].(status := Stopped) else was[i]
  }

  class Agent {
    const nodeId: Id
    var containers: seq<EngineContainer>
    var deploymentMap: map<Id, Id>

    constructor (nodeId: Id)
      ensures this.nodeId == nodeId && Valid() && Rows() == []
    {
      this.nodeId, containers, deploymentMap := nodeId, [], map[];
    }

    ghost predicate Valid()
      reads this
    {
      DistinctBy(containers, IdOf())
    }

    function Rows(): seq<ContainerRecord>
      reads this
    {
      Map(containers, Joined(nodeId, deploymentMap))
    }

    ghost predicate Unused(id: Id)
      reads this
    {
      id !in deploymentMap && forall c :: c in containers ==> c.id != id
    }

    /** The assignment's environment over the default path, and under what says where the container belongs. */
    method Configure(a: Assignment, id: Id) returns (config: ContainerConfig)
      ensures config.name == ContainerName(a.serviceName, id)
      ensures (config.image, config.command, config.cpu, config.memory)
           == (a.work.image, a.work.command, a.work.cpu, a.work.memory)
      ensures config.env.Keys
           == a.work.env.Keys + {"PATH", "PYCRATE_NODE", "PYCRATE_SERVICE", "PYCRATE_DEPLOYMENT"}
      ensures (config.env["PYCRATE_NODE"], config.env["PYCRATE_SERVICE"], config.env["PYCRATE_DEPLOYMENT"])
           == (nodeId, a.serviceName, a.deploymentId)
      ensures forall key :: key in a.work.env && key !in ["PYCRATE_NODE", "PYCRATE_SERVICE", "PYCRATE_DEPLOYMENT"] ==>
        config.env[key] == a.work.env[key]
      ensures "PATH" !in a.work.env ==> config.env["PATH"] == DEFAULT_PATH
    {
      var env := map["PATH" := DEFAULT_PATH];
      env := env + a.work.env;
      env := env["PYCRATE_NODE" := nodeId];
      env := env["PYCRATE_SERVICE" := a.serviceName];
      env := env["PYCRATE_DEPLOYMENT" := a.deploymentId];
      config := ContainerConfig(
        ContainerName(a.serviceName, id), a.work.image, a.work.command, a.work.cpu, a.work.memory, env);
    }

    /** Create, start, remember the deployment; it raises unless the container has been started. */
    method Create(a: Assignment, outcome: Outcome, id: Id, now: Time) returns (ok: bool)
      requires Valid() && Unused(id)
      modifies this
      ensures Valid()
      ensures Rows() == RunCreate(old(Rows()), nodeId, a, outcome, id, now)
      ensures forall x :: x != id && old(Unused(x)) ==> Unused(x)
      ensures ok <==> exists c :: c in containers && c.id == id && c.status == Running
      ensures ok <==> outcome == Done
      ensures outcome == Failed ==> containers == old(containers)
      ensures outcome != Failed ==> exists c ::
        && containers == old(containers) + [c] && c.id == id && c.startedAt == now
        && c.status == (if outcome == Done then Running else Error)
        && c.config.name == ContainerName(a.serviceName, id)
        && (c.config.image, c.config.command, c.config.cpu, c.config.memory)
           == (a.work.image, a.work.command, a.work.cpu, a.work.memory)
      ensures deploymentMap == if ok then old(deploymentMap)[id := a.deploymentId] else old(deploymentMap)
    {
      if outcome.Failed? {
        return false;
      }
      ok := outcome.Done?;
      var config := Configure(a, id);
      var added := EngineContainer(id, config, if ok then Running else Error, now);
      AddedRow(containers, nodeId, deploymentMap, added, a.deploymentId);
      hide Map, Joined;
      containers := containers + [added];
      assert containers[|containers| - 1] == added;
      if ok {
        deploymentMap := deploymentMap[id := a.deploymentId];
      }
    }

    /** Stop and remove; whatever the engine raises is swallowed. */
    method Stop(a: Assignment, outcome: Outcome)
      requires Valid()
      modifies this
      ensures Valid()
      ensures Rows() == RunStop(old(Rows()), nodeId, a, outcome)
      ensures a.containerId == "" || outcome == Failed ==>
        containers == old(containers) && deploymentMap == old(deploymentMap)
      ensures a.containerId != "" && outcome == Done ==> RunningGone(containers, old(containers), a.containerId)
      ensures a.containerId != "" && outcome == HalfDone ==>
        RunningHalted(containers, old(containers), a.containerId) && deploymentMap == old(deploymentMap)
      ensures forall x :: old(Unused(x)) ==> Unused(x)
    {
      hide Map, Filter, Joined, DistinctBy, RunningGone, RunningHalted;
      if a.containerId == "" || outcome.Failed? {
        return;
      }
      var id := a.containerId;
      var present := exists i :: 0 <= i < |containers| && containers[i].id == id && containers[i].status.Running?;
      if !present {
        NothingToStop(containers, nodeId, deploymentMap, id);
        return;
      }
      if outcome.HalfDone? {
        HaltRows(containers, nodeId, deploymentMap, id);
        containers := Map(containers, HaltedIn(id));
      } else {
        StopRows(containers, nodeId, deploymentMap, id);
        containers := Filter(containers, Elsewise(id));
        deploymentMap := deploymentMap - {id};
      }
    }

    /** The execute step of a cycle: a failing create is skipped, everything else is to be acknowledged. */
    method ExecuteAll(batch: seq<Assignment>, outcomes: seq<Outcome>, names: seq<Id>, now: Time)
      returns (completed: seq<nat>)
      requires Valid() && |batch| == |outcomes| == |names|
      requires forall i :: 0 <= i < |names| ==> Unused(names[i])
      requires forall i, j :: 0 <= i < j < |names| ==> names[i] != names[j]
      modifies this
      ensures Valid()
      ensures Rows() == RunOutcomes(old(Rows()), nodeId, batch, outcomes, names, now)
      ensures completed == CompletedIds(batch, outcomes)
      ensures forall i :: 0 <= i < |batch| && (batch[i].action.Create? ==> outcomes[i] == Done) ==>
        batch[i].assignmentId in completed
      ensures forall id :: id in completed ==> exists i ::
        0 <= i < |batch| && batch[i].assignmentId == id && (batch[i].action.Create? ==> outcomes[i] == Done)
    {
      hide RunOutcomes, CompletedIds, RunCreate, RunStop, Map, Rows, Valid;
      completed := [];
      RunEnd(nodeId, now);
      assert batch[0..] == batch && outcomes[0..] == outcomes && names[0..] == names;
      for i := 0 to |batch|
        invariant Valid()
        invariant forall j :: i <= j < |names| ==> Unused(names[j])
        invariant RunOutcomes(Rows(), nodeId, batch[i..], outcomes[i..], names[i..], now)
               == RunOutcomes(old(Rows()), nodeId, batch, outcomes, names, now)
        invariant completed + CompletedIds(batch[i..], outcomes[i..]) == CompletedIds(batch, outcomes)
        invariant forall j :: 0 <= j < i && (batch[j].action.Create? ==> outcomes[j] == Done) ==>
          batch[j].assignmentId in completed
        invariant forall id :: id in completed ==> exists j ::
          0 <= j < i && batch[j].assignmentId == id && (batch[j].action.Create? ==> outcomes[j] == Done)
      {
        RunNext(Rows(), nodeId, batch, outcomes, names, now, i);
        var a := batch[i];
        var ok := true;
        if a.action.Create? {
          ok := Create(a, outcomes[i], names[i], now);
        } else {
          Stop(a, outcomes[i]);
        }
        if ok {
          completed := completed + [a.assignmentId];
        }
      }
    }

    /** The heartbeat: every container with its deployment, and the load of the running ones. */
    method Report() returns (rows: seq<ContainerRecord>, cpu: int, memory: int)
      ensures rows == Rows()
      ensures |rows| == |containers| && forall i :: 0 <= i < |rows| ==>
        var c := containers[i];
        rows[i] == ContainerRecord(
          c.id, nodeId, if c.id in deploymentMap then deploymentMap[c.id] else "", c.config.name, c.status, c.startedAt)
      ensures cpu == Total(containers, RunningCpu()) && memory == Total(containers, RunningMemory())
      ensures cpu == Total(containers, (c: EngineContainer) => if c.status == Running then c.config.cpu else 0)
      ensures memory == Total(containers, (c: EngineContainer) => if c.status == Running then c.config.memory else 0)
    {
      rows, cpu, memory := [], 0, 0;
      hide Total;
      assert Total(containers[..0], RunningCpu()) == 0 && Total(containers[..0], RunningMemory()) == 0 by {
        TotalZero(containers[..0], RunningCpu());
        TotalZero(containers[..0], RunningMemory());
      }
      for i := 0 to |containers|
        invariant |rows| == i && forall j :: 0 <= j < i ==> rows[j] == Joined(nodeId, deploymentMap)(containers[j])
        invariant cpu == Total(containers[..i], RunningCpu())
        invariant memory == Total(containers[..i], RunningMemory())
      {
        var c := containers[i];
        TotalAppend(containers[..i], c, RunningCpu());
        TotalAppend(containers[..i], c, RunningMemory());
        assert containers[..i + 1] == containers[..i] + [c];
        var d := if c.id in deploymentMap then deploymentMap[c.id] else "";
        rows := rows + [ContainerRecord(c.id, nodeId, d, c.config.name, c.status, c.startedAt)];
        if c.status.Running? {
          cpu, memory := cpu + c.config.cpu, memory + c.config.memory;
        }
      }
      assert containers[..|containers|] == containers;
      TotalSame(containers, RunningCpu(), (c: EngineContainer) => if c.status == Running then c.config.cpu else 0);
      TotalSame(containers, RunningMemory(), (c: EngineContainer) => if c.status == Running then c.config.memory else 0);
    }

    /** A restarted agent finds its containers again but starts with an empty map. */
    method Restart()
      requires Valid()
      modifies this
      ensures Valid()
      ensures Rows() == Map(old(Rows()), Forgotten(nodeId))
      ensures containers == old(containers) && deploymentMap == map[]
    {
      deploymentMap := map[];
    }
  }

  // ---- Why the joined rows behave ------------------------------------------

  lemma RunNext(rows: seq<ContainerRecord>, n: Id, batch: seq<Assignment>, outcomes: seq<Outcome>,
                names: seq<Id>, now: Time, i: nat)
    requires |batch| == |outcomes| == |names| && i < |batch|
    ensures RunOutcomes(rows, n, batch[i..], outcomes[i..], names[i..], now)
         == RunOutcomes(RunAssignment(rows, n, batch[i], outcomes[i], names[i], now),
                        n, batch[i + 1..], outcomes[i + 1..], names[i + 1..], now)
    ensures CompletedIds(batch[i..], outcomes[i..])
         == (if Completes(batch[i], outcomes[i]) then [batch[i].assignmentId] else [])
            + CompletedIds(batch[i + 1..], outcomes[i + 1..])
  {
    hide RunAssignment, Completes;
    assert batch[i..][1..] == batch[i + 1..] && outcomes[i..][1..] == outcomes[i + 1..]
        && names[i..][1..] == names[i + 1..];
  }

  lemma RunEnd(n: Id, now: Time)
    ensures forall rows :: RunOutcomes(rows, n, [], [], [], now) == rows
    ensures CompletedIds([], []) == []
  {
  }

  lemma {:induction false} NothingToStop(cs: seq<EngineContainer>, n: Id, m: map<Id, Id>, id: Id)
    requires forall c :: c in cs ==> !(c.id == id && c.status.Running?)
    ensures Map(Map(cs, Joined(n, m)), Halted(n, id)) == Map(cs, Joined(n, m))
    ensures Filter(Map(cs, Joined(n, m)), NotStopped(n, id)) == Map(cs, Joined(n, m))
    ensures RunningGone(cs, cs, id) && RunningHalted(cs, cs, id)
  {
    assert RunningGone(cs, cs, id) && RunningHalted(cs, cs, id);
    hide RunningGone, RunningHalted;
    FilterOfMap(cs, Joined(n, m), NotStopped(n, id), Elsewise(id));
    FilterAll(cs, Elsewise(id));
    hide Filter;
  }

  lemma HaltRows(cs: seq<EngineContainer>, n: Id, m: map<Id, Id>, id: Id)
    requires DistinctBy(cs, IdOf())
    ensures var after := Map(cs, HaltedIn(id));
      && Map(after, Joined(n, m)) == Map(Map(cs, Joined(n, m)), Halted(n, id))
      && DistinctBy(after, IdOf()) && RunningHalted(after, cs, id)
      && forall c :: c in after ==> exists b :: b in cs && b.id == c.id
  {
    var after := Map(cs, HaltedIn(id));
    forall c | c in after ensures exists b :: b in cs && b.id == c.id {
      var i :| 0 <= i < |after| && after[i] == c;
      assert cs[i] in cs;
    }
  }

  /** A container with a new id adds its own row and leaves the others. */
  lemma AddedRow(cs: seq<EngineContainer>, n: Id, m: map<Id, Id>, added: EngineContainer, d: Id)
    requires added.id !in m && forall c :: c in cs ==> c.id != added.id
    ensures DistinctBy(cs, IdOf()) ==> DistinctBy(cs + [added], IdOf())
    ensures Map(cs + [added], Joined(n, m)) == Map(cs, Joined(n, m)) + [Joined(n, m)(added)]
    ensures Map(cs + [added], Joined(n, m[added.id := d]))
         == Map(cs, Joined(n, m)) + [Joined(n, m[added.id := d])(added)]
    ensures Joined(n, m)(added)
         == ContainerRecord(added.id, n, "", added.config.name, added.status, added.startedAt)
    ensures Joined(n, m[added.id := d])(added)
         == ContainerRecord(added.id, n, d, added.config.name, added.status, added.startedAt)
  {
    assert forall i :: 0 <= i < |cs| ==> cs[i] in cs;
  }

  /** Removing the stopped container from list and map is removing its row. */
  lemma StopRows(cs: seq<EngineContainer>, n: Id, m: map<Id, Id>, id: Id)
    requires DistinctBy(cs, IdOf())
    requires exists i :: 0 <= i < |cs| && cs[i].id == id && cs[i].status.Running?
    ensures var left := Filter(cs, Elsewise(id));
      && Map(left, Joined(n, m - {id})) == Filter(Map(cs, Joined(n, m)), NotStopped(n, id))
      && DistinctBy(left, IdOf()) && RunningGone(left, cs, id)
      && forall c :: c in left ==> c in cs
  {
    FilterDistinct(cs, Elsewise(id), IdOf());
    GoneFromList(cs, id);
    FilterOfMap(cs, Joined(n, m), NotStopped(n, id), Elsewise(id));
    assert RunningGone(Filter(cs, Elsewise(id)), cs, id);
    hide RunningGone;
    hide Filter, DistinctBy, Map;
    ForgottenOf(Filter(cs, Elsewise(id)), n, m, id);
  }

  /** Forgetting an id changes nothing for containers with other ids. */
  lemma ForgottenOf(cs: seq<EngineContainer>, n: Id, m: map<Id, Id>, id: Id)
    requires forall c :: c in cs ==> c.id != id
    ensures Map(cs, Joined(n, m - {id})) == Map(cs, Joined(n, m))
  {
    forall j | 0 <= j < |cs| ensures Joined(n, m - {id})(cs[j]) == Joined(n, m)(cs[j]) {
      assert cs[j] in cs;
    }
  }

  lemma GoneFromList(cs: seq<EngineContainer>, id: Id)
    requires DistinctBy(cs, IdOf())
    requires exists i :: 0 <= i < |cs| && cs[i].id == id && cs[i].status.Running?
    ensures forall c :: c in Filter(cs, Elsewise(id)) ==> c.id != id
  {
    hide Filter;
    var i :| 0 <= i < |cs| && cs[i].id == id && cs[i].status.Running?;
    forall c | c in Filter(cs, Elsewise(id)) ensures c.id != id {
      assert Elsewise(id)(c) && c in cs;
      var j :| 0 <= j < |cs| && cs[j] == c;
      assert j != i ==> IdOf()(cs[i]) != IdOf()(cs[j]);
    }
  }

  // ---- The agent inside the cluster ----------------------------------------

  function Both(p: ContainerRecord -> bool, q: ContainerRecord -> bool): ContainerRecord -> bool {
    (c: ContainerRecord) => p(c) && q(c)
  }

  lemma {:induction false} FiltersCommute(s: seq<ContainerRecord>, p: ContainerRecord -> bool, q: ContainerRecord -> bool)
    ensures Filter(Filter(s, p), q) == Filter(Filter(s, q), p)
  {
    FilterOfFilter(s, p, q, Both(p, q));
    FilterOfFilter(s, q, p, Both(p, q));
  }

  lemma StopsLocally(engines: seq<ContainerRecord>, n: Id, id: Id, m: Id)
    ensures Filter(Filter(engines, NotStopped(n, id)), OnNode(m))
      == if m == n then Filter(Filter(engines, OnNode(n)), NotStopped(n, id)) else Filter(engines, OnNode(m))
  {
    if m == n {
      FiltersCommute(engines, NotStopped(n, id), OnNode(n));
    } else {
      FilterOfFilter(engines, NotStopped(n, id), OnNode(m), OnNode(m));
    }
  }

  lemma HaltsLocally(engines: seq<ContainerRecord>, n: Id, id: Id, m: Id)
    ensures Filter(Map(engines, Halted(n, id)), OnNode(m))
      == if m == n then Map(Filter(engines, OnNode(n)), Halted(n, id)) else Filter(engines, OnNode(m))
  {
    FilterOfMap(engines, Halted(n, id), OnNode(m), OnNode(m));
    if m != n {
      var rows := Filter(engines, OnNode(m));
      forall i | 0 <= i < |rows| ensures Halted(n, id)(rows[i]) == rows[i] {
        assert rows[i] in rows && OnNode(m)(rows[i]);
      }
    }
  }

  /** What one agent executes happens on its own node, as it would with that node alone. */
  lemma {:induction false} ExecutesLocally(
    engines: seq<ContainerRecord>, n: Id, a: Assignment, outcome: Outcome, newId: Id, now: Time, m: Id)
    ensures Filter(RunAssignment(engines, n, a, outcome, newId, now), OnNode(m))
      == if m == n then RunAssignment(Filter(engines, OnNode(n)), n, a, outcome, newId, now)
         else Filter(engines, OnNode(m))
  {
    hide Filter, Map;
    if a.action.Create? {
      var name := ContainerName(a.serviceName, newId);
      FilterAppend(engines, ContainerRecord(newId, n, a.deploymentId, name, Running, now), OnNode(m));
      FilterAppend(engines, ContainerRecord(newId, n, "", name, Error, now), OnNode(m));
    } else {
      StopsLocally(engines, n, a.containerId, m);
      HaltsLocally(engines, n, a.containerId, m);
    }
  }

  /** The events of one agent executing its batch. */
  function Executions(n: Id, outcomes: seq<Outcome>, names: seq<Id>, now: Time): seq<Event>
    requires |outcomes| == |names|
  {
    seq(|outcomes|, i requires 0 <= i < |outcomes| => Execute(n, outcomes[i], names[i], now))
  }

  ghost predicate NamesUnused(engines: seq<ContainerRecord>, names: seq<Id>) {
    && (forall i, c :: 0 <= i < |names| && c in engines ==> c.containerId != names[i])
    && (forall i, j :: 0 <= i < j < |names| ==> names[i] != names[j])
  }

  lemma StillUnused(
    engines: seq<ContainerRecord>, n: Id, a: Assignment, outcome: Outcome, names: seq<Id>, now: Time)
    requires names != [] && NamesUnused(engines, names)
    ensures NamesUnused(RunAssignment(engines, n, a, outcome, names[0], now), names[1..])
  {
    var v := RunAssignment(engines, n, a, outcome, names[0], now);
    forall c | c in v ensures c.containerId == names[0] || exists b :: b in engines && b.containerId == c.containerId {
      if a.action.Stop? && outcome.HalfDone? && a.containerId != "" {
        var i :| 0 <= i < |v| && v[i] == c;
        assert engines[i] in engines;
      }
    }
  }

  lemma ExecuteEffect(w: World, n: Id, outcome: Outcome, newId: Id, now: Time)
    requires Enabled(w, Execute(n, outcome, newId, now))
    ensures var u := Apply(w, Execute(n, outcome, newId, now));
      var s := w.agents[n];
      u == w.(engines := RunAssignment(w.engines, n, s.batch[0], outcome, newId, now),
              agents := w.agents[n := AgentState(
                s.batch[1..], s.completed + if Completes(s.batch[0], outcome) then [s.batch[0].assignmentId] else [])],
              executed := u.executed)
  {
    assert w.agents[n].completed + [] == w.agents[n].completed;
    hide RunAssignment, Completes;
  }

  lemma PlayFirst(w: World, e: Event, es: seq<Event>)
    requires Enabled(w, e) && Legal(Apply(w, e), es, Anything())
    ensures Legal(w, [e] + es, Anything())
    ensures Play(w, [e] + es, Anything()) == Play(Apply(w, e), es, Anything())
  {
    assert ([e] + es)[1..] == es;
  }

  lemma OutcomesUnroll(
    rows: seq<ContainerRecord>, n: Id, batch: seq<Assignment>, outcomes: seq<Outcome>, names: seq<Id>, now: Time,
    done: seq<nat>)
    requires |batch| == |outcomes| == |names| && batch != []
    ensures RunOutcomes(rows, n, batch, outcomes, names, now)
      == RunOutcomes(RunAssignment(rows, n, batch[0], outcomes[0], names[0], now),
                     n, batch[1..], outcomes[1..], names[1..], now)
    ensures done + CompletedIds(batch, outcomes)
      == (done + if Completes(batch[0], outcomes[0]) then [batch[0].assignmentId] else [])
         + CompletedIds(batch[1..], outcomes[1..])
  {
    hide RunAssignment, Completes;
  }

  lemma Overwrite(m: map<Id, AgentState>, n: Id, a: AgentState, b: AgentState)
    ensures m[n := a][n := b] == m[n := b]
  {
  }

  /**
   The agent's execute step is a run of the protocol: afterwards its node holds what the
   agent's own rows say, every other node what it held, and the ids to acknowledge are those
   the agent has collected.
   */
  lemma {:induction false} CycleIsARun(
    w: World, n: Id, outcomes: seq<Outcome>, names: seq<Id>, now: Time, m: Id)
    requires n in w.agents && |w.agents[n].batch| == |outcomes| == |names| && NamesUnused(w.engines, names)
    ensures Legal(w, Executions(n, outcomes, names, now), Anything())
    ensures var v := Play(w, Executions(n, outcomes, names, now), Anything());
      && v == w.(engines := RunOutcomes(w.engines, n, w.agents[n].batch, outcomes, names, now),
                 agents := w.agents[n := AgentState(
                   [], w.agents[n].completed + CompletedIds(w.agents[n].batch, outcomes))],
                 executed := v.executed)
      && Filter(v.engines, OnNode(m))
         == if m == n then RunOutcomes(Filter(w.engines, OnNode(n)), n, w.agents[n].batch, outcomes, names, now)
            else Filter(w.engines, OnNode(m))
    decreases |outcomes|
  {
    var batch := w.agents[n].batch;
    if outcomes == [] {
      assert batch == [] && w.agents[n].completed + [] == w.agents[n].completed;
      assert w.agents[n := w.agents[n]] == w.agents;
      hide Filter;
    } else {
      var e := Execute(n, outcomes[0], names[0], now);
      assert Enabled(w, e);
      var u := Apply(w, e);
      var rest := Executions(n, outcomes[1..], names[1..], now);
      assert Executions(n, outcomes, names, now) == [e] + rest;
      ExecuteEffect(w, n, outcomes[0], names[0], now);
      ExecutesLocally(w.engines, n, batch[0], outcomes[0], names[0], now, m);
      StillUnused(w.engines, n, batch[0], outcomes[0], names, now);
      OutcomesUnroll(Filter(w.engines, OnNode(n)), n, batch, outcomes, names, now,
                     w.agents[n].completed);
      OutcomesUnroll(w.engines, n, batch, outcomes, names, now, w.agents[n].completed);
      var last := AgentState([], w.agents[n].completed + CompletedIds(batch, outcomes));
      hide *;
      Overwrite(w.agents, n, u.agents[n], last);
      CycleIsARun(u, n, outcomes[1..], names[1..], now, m);
      PlayFirst(w, e, rest);
    }
  }

  function AllSucceed(n: nat): (r: seq<Outcome>)
    ensures |r| == n
  {
    seq(n, i => Done)
  }

  /** The names given to containers are those of the creates; what a stop is given does not matter. */
  predicate Named(batch: seq<Assignment>, names: seq<Id>, name: nat -> Id) {
    && |names| == |batch|
    && forall i :: 0 <= i < |batch| && batch[i].action.Create? ==> names[i] == name(batch[i].assignmentId)
  }

  /** The batch of a convergence round is the agent's batch with every assignment succeeding, all acknowledged. */
  lemma {:induction false} RoundBatchIsAgentBatch(
    engines: seq<ContainerRecord>, n: Id, batch: seq<Assignment>, names: seq<Id>, name: nat -> Id, now: Time)
    requires Named(batch, names, name)
    ensures RunBatch(engines, n, batch, name, now)
         == RunOutcomes(engines, n, batch, AllSucceed(|batch|), names, now)
    ensures CompletedIds(batch, AllSucceed(|batch|)) == Map(batch, AssignmentIdOf())
    decreases |batch|
  {
    if batch != [] {
      var a := batch[0];
      assert AllSucceed(|batch|)[1..] == AllSucceed(|batch[1..]|);
      assert Map(batch, AssignmentIdOf()) == [a.assignmentId] + Map(batch[1..], AssignmentIdOf());
      var next := RunAssignment(engines, n, a, Done, name(a.assignmentId), now);
      assert next == RunAssignment(engines, n, a, Done, names[0], now);
      hide RunAssignment;
      RoundBatchIsAgentBatch(next, n, batch[1..], names[1..], name, now);
    }
  }
}
