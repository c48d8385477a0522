/**
 What the compose engine does to the lists of instances it keeps for the services of a
 manifest: the pass that restarts, adds and removes instances, the start and the stop.

 An instance's `serial` stands for the object's identity.  How the creation of the
 instance with a given serial goes is a parameter of the engine.
 */
module Compose {
  import opened Wrappers
  import opened Seqs
  import opened StartOrder

  datatype ServiceState = Pending | Starting | Running | Unhealthy | Stopped | Restarting | Error

  /** Started; failed before there was a running container; failed after. */
  datatype Fate = Starts | CannotStart | FailsStarted

  datatype Container = NoContainer | Container(alive: bool)

  datatype Instance = Instance(
    serial: nat, replicaIndex: nat, container: Container, state: ServiceState, restartCount: nat)

  // ---- One instance --------------------------------------------------------

  function Active(): Instance -> bool { (i: Instance) => i.state.Running? || i.state.Starting? }

  function Inactive(): Instance -> bool { (i: Instance) => !(i.state.Running? || i.state.Starting?) }

  function SerialOf(): Instance -> nat { (i: Instance) => i.serial }

  function Made(fate: nat -> Fate, serial: nat, index: nat): Instance {
    match fate(serial)
    case Starts => Instance(serial, index, Container(true), Running, 0)
    case CannotStart => Instance(serial, index, NoContainer, Error, 0)
    case FailsStarted => Instance(serial, index, Container(true), Error, 0)
  }

  /** A running instance whose container has ended counts as stopped. */
  function Observed(i: Instance): Instance {
    if i.container.Container? && !i.container.alive && i.state.Running? then i.(state := Stopped) else i
  }

  predicate MustRestart(i: Instance, restart: string) {
    && (i.state.Stopped? || i.state.Error? || i.state.Unhealthy?)
    && (restart == "always" || (restart == "on-failure" && !i.state.Stopped?))
  }

  /** Replaced by a new instance of the same index, one restart later, if the policy says so. */
  function Checked(i: Instance, restart: string, fate: nat -> Fate, next: nat): (Instance, nat) {
    if MustRestart(Observed(i), restart)
    then (Made(fate, next, i.replicaIndex).(restartCount := i.restartCount + 1), next + 1)
    else (Observed(i), next)
  }

  // ---- One service's list --------------------------------------------------

  function CheckedAll(l: seq<Instance>, restart: string, fate: nat -> Fate, next: nat): (r: (seq<Instance>, nat))
    ensures |r.0| == |l| && next <= r.1
  {
    if l == [] then ([], next)
    else
      var (before, n) := CheckedAll(l[..|l| - 1], restart, fate, next);
      var (last, m) := Checked(l[|l| - 1], restart, fate, n);
      (before + [last], m)
  }

  /** New instances with the indices `from`, `from + 1`, ... below `to`. */
  function Fresh(fate: nat -> Fate, next: nat, from: nat, to: nat): seq<Instance>
    requires from <= to
  {
    seq(to - from, k requires 0 <= k < to - from => Made(fate, next + k, from + k))
  }

  /** Without its last `excess` active instances. */
  function Trimmed(l: seq<Instance>, excess: int): seq<Instance> {
    if l == [] || excess <= 0 then l
    else if Active()(l[|l| - 1]) then Trimmed(l[..|l| - 1], excess - 1)
    else Trimmed(l[..|l| - 1], excess) + [l[|l| - 1]]
  }

  function Scaled(l: seq<Instance>, replicas: int, fate: nat -> Fate, next: nat): (seq<Instance>, nat) {
    var running := Count(l, Active());
    if running < replicas then (l + Fresh(fate, next, running, replicas), next + (replicas - running))
    else (Trimmed(l, running - replicas), next)
  }

  /** What a pass makes of one service's instances. */
  function Reconciled(l: seq<Instance>, service: Service, fate: nat -> Fate, next: nat): (seq<Instance>, nat) {
    var (checked, n) := CheckedAll(l, service.restart, fate, next);
    Scaled(checked, service.replicas, fate, n)
  }

  // ---- The engine ----------------------------------------------------------

  datatype Stack = Stack(instances: map<Name, seq<Instance>>, next: nat)

  function ListOf(s: Stack, name: Name): seq<Instance> {
    if name in s.instances then s.instances[name] else []
  }

  function ReconciledOne(s: Stack, service: Service, name: Name, fate: nat -> Fate): Stack {
    var (l, n) := Reconciled(ListOf(s, name), service, fate, s.next);
    Stack(s.instances[name := l], n)
  }

  function ReconciledAll(s: Stack, m: Manifest, names: seq<Name>, fate: nat -> Fate): Stack
    requires forall n :: n in names ==> n in m.services
    decreases |names|
  {
    if names == [] then s
    else ReconciledAll(ReconciledOne(s, m.services[names[0]], names[0], fate), m, names[1..], fate)
  }

  // ---- Starting ------------------------------------------------------------

  /** The place of the first instance with this index; the length when there is none. */
  function FirstWith(l: seq<Instance>, index: nat): (p: nat)
    ensures p <= |l| && (p < |l| ==> l[p].replicaIndex == index)
    ensures forall k :: 0 <= k < p ==> l[k].replicaIndex != index
  {
    if l == [] then 0
    else
      var p := FirstWith(l[..|l| - 1], index);
      if p < |l| - 1 || l[|l| - 1].replicaIndex == index then p else |l|
  }

  function StartedOne(l: seq<Instance>, index: nat, fate: nat -> Fate, next: nat): (seq<Instance>, nat) {
    var p := FirstWith(l, index);
    if p < |l| && l[p].state.Running? then (l, next)
    else if p < |l| then (l[p := Made(fate, next, index)], next + 1)
    else (l + [Made(fate, next, index)], next + 1)
  }

  function StartedFrom(l: seq<Instance>, index: nat, replicas: int, fate: nat -> Fate, next: nat): (seq<Instance>, nat)
    decreases replicas - index
  {
    if index >= replicas then (l, next)
    else
      var (m, n) := StartedOne(l, index, fate, next);
      StartedFrom(m, index + 1, replicas, fate, n)
  }

  function StartedService(s: Stack, service: Service, fate: nat -> Fate): Stack {
    var (l, n) := StartedFrom(ListOf(s, service.name), 0, service.replicas, fate, s.next);
    Stack(s.instances[service.name := l], n)
  }

  function StartedAll(s: Stack, m: Manifest, order: seq<Name>, fate: nat -> Fate): Stack
    requires forall n :: n in order ==> n in m.services
    decreases |order|
  {
    if order == [] then s
    else StartedAll(StartedService(s, m.services[order[0]], fate), m, order[1..], fate)
  }

  // ---- Stopping ------------------------------------------------------------

  /** The serials of the instances in the order they are stopped. */
  function StopSequence(s: Stack, order: seq<Name>): seq<nat> {
    if order == [] then []
    else StopSequence(s, order[..|order| - 1]) + Map(ListOf(s, order[|order| - 1]), SerialOf())
  }

  function Emptied(instances: map<Name, seq<Instance>>, order: seq<Name>): map<Name, seq<Instance>> {
    if order == [] then instances else Emptied(instances, order[..|order| - 1])[order[|order| - 1] := []]
  }

  /** A service's name is its key. */
  predicate KeyedByName(m: Manifest) { forall n :: n in m.services ==> m.services[n].name == n }

  /** Serials are unique within a list and were all given out. */
  predicate Numbered(l: seq<Instance>, next: nat) {
    DistinctBy(l, SerialOf()) && forall i :: i in l ==> i.serial < next
  }
}
