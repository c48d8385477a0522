/**
 The compose engine: the object that owns the lists and walks them in place.
 */
module ComposeEngine {
  import opened Wrappers
  import opened Seqs
  import opened StartOrder
  import opened Compose
  import opened ComposeProperties
  import opened ComposeStart

  class Engine {
    const fate: nat -> Fate
    var manifest: Manifest
    var instances: map<Name, seq<Instance>>
    var next: nat

    constructor (manifest: Manifest, fate: nat -> Fate)
      requires WellFormed(manifest)
      ensures this.manifest == manifest && this.fate == fate && State() == Stack(map[], 0) && Valid()
    {
      this.manifest, this.fate, instances, next := manifest, fate, map[], 0;
    }

    function State(): Stack
      reads this
    {
      Stack(instances, next)
    }

    ghost predicate Valid()
      reads this
    {
      WellFormed(manifest) && forall name :: name in instances ==> Numbered(instances[name], next)
    }

    method CreateInstance(index: nat) returns (i: Instance)
      modifies this`next
      ensures i == Made(fate, old(next), index) && next == old(next) + 1
      ensures i.serial == old(next) && i.replicaIndex == index && i.restartCount == 0
      ensures match fate(old(next))
        case Starts => i.state == Running && i.container == Container(true)
        case CannotStart => i.state == Error && i.container == NoContainer
        case FailsStarted => i.state == Error && i.container == Container(true)
    {
      i := Instance(next, index, NoContainer, Starting, 0);
      match fate(next) {
        case Starts => i := i.(container := Container(true), state := Running);
        case CannotStart => i := i.(state := Error);
        case FailsStarted => i := i.(container := Container(true), state := Error);
      }
      next := next + 1;
    }

    /** The position of an instance, found by comparing with each in turn. */
    method IndexOf(l: seq<Instance>, i: Instance) returns (k: nat)
      requires i in l
      ensures k < |l| && l[k] == i && i !in l[..k]
    {
      k := 0;
      while l[k] != i
        invariant k < |l| && i !in l[..k]
        decreases |l| - k
      {
        k := k + 1;
      }
    }

    /** Takes the instance at `at` through RESTARTING, and puts a new one in its place. */
    method RestartInstance(name: Name, at: nat)
      requires name in instances && at < |instances[name]| && Numbered(instances[name], next)
      modifies this`instances, this`next
      ensures next == old(next) + 1
      ensures var i := old(instances)[name][at];
        instances == old(instances)[name := old(instances)[name][
          at := Made(fate, old(next), i.replicaIndex).(restartCount := i.restartCount + 1)]]
      ensures Numbered(instances[name], next)
    {
      var l := instances[name];
      var i := l[at];
      var count := i.restartCount + 1;
      var stopped := i.(
        state := Stopped, restartCount := count,
        container := if i.container.Container? then Container(false) else NoContainer);
      instances := instances[name := l[at := stopped]];
      var replacement := CreateInstance(i.replicaIndex);
      assert l[at := stopped][at] == stopped;
      var idx := IndexOf(l[at := stopped], stopped);
      SameSerialSamePlace(l, at, idx, stopped);
      assert l[at := stopped][at := replacement.(restartCount := count)] == l[at := replacement.(restartCount := count)];
      instances := instances[name := l[at := stopped][idx := replacement.(restartCount := count)]];
      OneReplaced(l, at, replacement.(restartCount := count), old(next), next);
    }

    /** One turn of the first loop of a pass: a crash is noticed and the restart policy applied. */
    method CheckInstance(name: Name, k: nat, restart: string)
      requires name in instances && k < |instances[name]| && Numbered(instances[name], next)
      modifies this`instances, this`next
      ensures var (x, n) := Checked(old(instances)[name][k], restart, fate, old(next));
        instances == old(instances)[name := old(instances)[name][k := x]] && next == n
      ensures old(next) <= next && Numbered(instances[name], next)
    {
      var l := instances[name];
      var i := Observed(l[k]);
      OneReplaced(l, k, i, next, next);
      hide Numbered;
      instances := instances[name := l[k := i]];
      if MustRestart(i, restart) {
        RestartInstance(name, k);
      }
      ghost var x := Checked(l[k], restart, fate, old(next)).0;
      assert l[k := i][k := x] == l[k := x];
    }

    method CheckInstances(name: Name, restart: string)
      requires name in instances && Numbered(instances[name], next)
      modifies this`instances, this`next
      ensures var (l, n) := CheckedAll(old(instances)[name], restart, fate, old(next));
        instances == old(instances)[name := l] && next == n
      ensures old(next) <= next && Numbered(instances[name], next)
    {
      hide CheckedAll, Numbered, Checked;
      ghost var was := instances[name];
      ghost var since := next;
      NoneChecked(was, restart, fate, since);
      for k := 0 to |instances[name]|
        invariant since <= next && name in instances && |instances[name]| == |was|
        invariant Numbered(instances[name], next)
        invariant (instances[name], next) == CheckedUpTo(was, k, restart, fate, since)
        invariant instances == old(instances)[name := instances[name]]
      {
        NextChecked(was, k, restart, fate, since);
        CheckInstance(name, k, restart);
      }
      AllChecked(was, restart, fate, since);
    }

    method ScaleUp(name: Name, running: nat, replicas: int)
      requires name in instances && Numbered(instances[name], next) && running < replicas
      modifies this`instances, this`next
      ensures next == old(next) + (replicas - running)
      ensures instances == old(instances)[name := old(instances)[name] + Fresh(fate, old(next), running, replicas)]
      ensures forall j :: |old(instances)[name]| <= j < |instances[name]| ==>
        var k, added := j - |old(instances)[name]|, instances[name][j];
        (added.replicaIndex, added.serial, added.restartCount) == (running + k, old(next) + k, 0)
      ensures Numbered(instances[name], next)
    {
      ghost var was := instances[name];
      hide Numbered;
      for i := running to replicas
        invariant next == old(next) + (i - running)
        invariant name in instances && instances == old(instances)[name := instances[name]]
        invariant instances[name] == was + Fresh(fate, old(next), running, i)
        invariant forall j :: |was| <= j < |instances[name]| ==>
          var k, added := j - |was|, instances[name][j];
          (added.replicaIndex, added.serial, added.restartCount) == (running + k, old(next) + k, 0)
        invariant Numbered(instances[name], next)
      {
        var added := CreateInstance(i);
        OneAdded(instances[name], added, next - 1);
        assert Fresh(fate, old(next), running, i + 1) == Fresh(fate, old(next), running, i) + [added];
        instances := instances[name := instances[name] + [added]];
      }
    }

    /** Stops an instance and takes out the one that equals it. */
    method StopAndRemove(name: Name, at: nat)
      requires name in instances && at < |instances[name]| && Numbered(instances[name], next)
      modifies this`instances
      ensures var l := old(instances)[name];
        instances == old(instances)[name := l[..at] + l[at + 1..]]
      ensures Numbered(instances[name], next)
    {
      var l := instances[name];
      var stopped := l[at].(
        state := Stopped,
        container := if l[at].container.Container? then Container(false) else NoContainer);
      instances := instances[name := l[at := stopped]];
      assert l[at := stopped][at] == stopped;
      var idx := IndexOf(l[at := stopped], stopped);
      SameSerialSamePlace(l, at, idx, stopped);
      OneRemoved(l, at, next);
      assert l[at := stopped][..at] + l[at := stopped][at + 1..] == l[..at] + l[at + 1..];
      instances := instances[name := l[at := stopped][..idx] + l[at := stopped][idx + 1..]];
    }

    /** Walks the list backwards while removing from it. */
    method ScaleDown(name: Name, tooMany: int)
      requires name in instances && Numbered(instances[name], next)
      modifies this`instances
      ensures instances == old(instances)[name := Trimmed(old(instances)[name], tooMany)]
      ensures Numbered(instances[name], next)
    {
      hide Numbered, Trimmed;
      ghost var was := instances[name];
      var excess := tooMany;
      var k := |instances[name]|;
      TrimNone(was, tooMany);
      while k > 0 && excess > 0
        invariant name in instances && instances == old(instances)[name := instances[name]]
        invariant 0 <= k <= |instances[name]| && Numbered(instances[name], next)
        invariant TrimmedFrom(instances[name], k, excess) == Trimmed(was, tooMany)
        decreases k
      {
        NextTrim(instances[name], k, excess);
        if Active()(instances[name][k - 1]) {
          StopAndRemove(name, k - 1);
          excess := excess - 1;
        }
        k := k - 1;
      }
      TrimDone(instances[name], k, excess);
    }

    /** The second half of a pass for one service. */
    method ScaleService(name: Name, replicas: int)
      requires name in instances && Numbered(instances[name], next)
      modifies this`instances, this`next
      ensures var (l, n) := Scaled(old(instances)[name], replicas, fate, old(next));
        instances == old(instances)[name := l] && next == n
      ensures old(next) <= next && Numbered(instances[name], next)
    {
      hide Numbered, Trimmed;
      TrimNothing(instances[name]);
      assert instances == instances[name := instances[name]];
      var running := Count(instances[name], Active());
      if running < replicas {
        ScaleUp(name, running, replicas);
      } else if running > replicas {
        ScaleDown(name, running - replicas);
      }
    }

    /** The body of a pass for one service; a service without a list gets one. */
    method ReconcileService(name: Name)
      requires Valid() && name in manifest.services
      modifies this`instances, this`next
      ensures Valid()
      ensures State() == ReconciledOne(old(State()), manifest.services[name], name, fate)
    {
      var service := manifest.services[name];
      ghost var l := ListOf(State(), name);
      if name !in instances {
        instances := instances[name := []];
      }
      assert instances == old(instances)[name := l];
      assert Numbered(l, next) by { EmptyNumbered(next); }
      hide CheckedAll, Numbered, Scaled;
      CheckInstances(name, service.restart);
      ScaleService(name, service.replicas);
      assert instances == old(instances)[name := instances[name]];
      forall other | other in instances ensures Numbered(instances[other], next) {
        if other != name {
          LaterNumbered(instances[other], old(next), next);
        }
      }
    }

    /** One pass over all services. */
    method Reconcile()
      requires Valid()
      modifies this`instances, this`next
      ensures Valid()
      ensures State() == ReconciledAll(old(State()), manifest, manifest.names, fate)
      ensures forall n :: n in manifest.services ==>
        && Count(ListOf(State(), n), Active()) <= Wanted(manifest.services[n].replicas)
        && (AllStart(fate, old(next), next) ==> Quiet(manifest.services[n])(ListOf(State(), n)))
    {
      for i := 0 to |manifest.names|
        invariant Valid()
        invariant ReconciledAll(State(), manifest, manifest.names[i..], fate)
               == ReconciledAll(old(State()), manifest, manifest.names, fate)
      {
        assert manifest.names[i..][1..] == manifest.names[i + 1..];
        hide ReconciledOne;
        ReconcileService(manifest.names[i]);
      }
      hide ReconciledAll;
      forall n | n in manifest.services
        ensures Count(ListOf(State(), n), Active()) <= Wanted(manifest.services[n].replicas)
        ensures AllStart(fate, old(next), next) ==> Quiet(manifest.services[n])(ListOf(State(), n))
      {
        WholePass(old(State()), manifest, fate, n);
      }
    }

    /** One replica at a time: running ones are left, others replaced where they stand, missing ones added. */
    method StartService(service: Service)
      requires forall name :: name in instances ==> Numbered(instances[name], next)
      modifies this`instances, this`next
      ensures forall name :: name in instances ==> Numbered(instances[name], next)
      ensures State() == StartedService(old(State()), service, fate)
    {
      var l := ListOf(State(), service.name);
      ghost var was := l;
      EmptyNumbered(next);
      hide Numbered, StartedFrom;
      var upTo := if service.replicas < 0 then 0 else service.replicas;
      for i := 0 to upTo
        invariant StartedFrom(l, i, service.replicas, fate, next) == StartedFrom(was, 0, service.replicas, fate, old(next))
        invariant instances == old(instances) && next >= old(next)
        invariant Numbered(l, next)
      {
        NextStarted(l, i, service.replicas, fate, next);
        var p := FirstWith(l, i);
        if p < |l| && l[p].state.Running? {
          continue;
        }
        var instance := CreateInstance(i);
        if p < |l| {
          var idx := IndexOf(l, l[p]);
          FirstIsFirst(l, i, idx);
          OneReplaced(l, p, instance, next - 1, next);
          l := l[idx := instance];
        } else {
          OneAdded(l, instance, next - 1);
          l := l + [instance];
        }
      }
      StartedEnd(l, upTo, service.replicas, fate, next);
      instances := instances[service.name := l];
      forall other | other in instances ensures Numbered(instances[other], next) {
        if other != service.name {
          LaterNumbered(instances[other], old(next), next);
        }
      }
    }

    /** Dependencies first; nothing is started when there is no order. */
    method Up() returns (order: Result<seq<Name>, Outcome>)
      requires Valid() && KeyedByName(manifest)
      modifies this`instances, this`next
      ensures Valid()
      ensures order.Ok? <==> Resolved(manifest) && Acyclic(manifest)
      ensures order.Ok? ==> IsStartOrder(manifest, order.value)
                            && State() == StartedAll(old(State()), manifest, order.value, fate)
      ensures order.Err? ==> State() == old(State())
      ensures order.Ok? && AllStart(fate, old(next), next) ==>
        forall n, i: nat :: n in manifest.services && i < manifest.services[n].replicas ==> Runs(ListOf(State(), n), i)
      ensures forall n, i: nat :: Runs(ListOf(old(State()), n), i) ==>
        SameReplica(ListOf(State(), n), ListOf(old(State()), n), i)
      ensures forall n :: n !in manifest.services ==>
        (n in instances <==> n in old(instances)) && ListOf(State(), n) == ListOf(old(State()), n)
      ensures forall a, b, x, y :: NeedsNew(manifest, old(State()), State(), a, b, x, y) ==> y.serial < x.serial
    {
      order := GetStartOrder(manifest);
      if order.Err? {
        return;
      }
      assert forall n :: n in order.value ==> n in manifest.services;
      for i := 0 to |order.value|
        invariant Valid()
        invariant StartedAll(State(), manifest, order.value[i..], fate)
               == StartedAll(old(State()), manifest, order.value, fate)
      {
        assert order.value[i..][1..] == order.value[i + 1..];
        hide StartedService;
        StartService(manifest.services[order.value[i]]);
      }
      UpMeans(old(State()), manifest, order.value, fate);
    }

    /** Stops the instances of a list one after another, and then forgets the list. */
    method StopService(name: Name) returns (stopped: seq<nat>)
      modifies this`instances
      ensures stopped == Map(ListOf(old(State()), name), SerialOf())
      ensures instances == old(instances)[name := []]
    {
      var l := ListOf(State(), name);
      stopped := [];
      for k := 0 to |l|
        invariant |stopped| == k && forall j :: 0 <= j < k ==> stopped[j] == SerialOf()(l[j])
      {
        stopped := stopped + [l[k].serial];
      }
      instances := instances[name := []];
    }

    /** The reverse of the start order, instance by instance; every list ends up empty. */
    method Down() returns (order: Result<seq<Name>, Outcome>, stopped: seq<nat>)
      requires Valid()
      modifies this`instances
      ensures Valid()
      ensures order.Ok? <==> Resolved(manifest) && Acyclic(manifest)
      ensures order.Ok? ==> exists up :: IsStartOrder(manifest, up) && order.value == Reversed(up)
      ensures order.Ok? ==> stopped == StopSequence(old(State()), order.value)
      ensures order.Ok? ==> instances == Emptied(old(instances), order.value)
      ensures order.Ok? ==> forall n :: n in manifest.services ==> n in instances && instances[n] == []
      ensures forall n :: n !in manifest.services ==>
        (n in instances <==> n in old(instances)) && ListOf(State(), n) == ListOf(old(State()), n)
      ensures order.Err? ==> instances == old(instances) && stopped == []
    {
      stopped := [];
      var up := GetStartOrder(manifest);
      if up.Err? {
        return Err(up.error), stopped;
      }
      var stopOrder := Reversed(up.value);
      ReversedRepeatsNot(up.value);
      hide IsStartOrder, Resolved, Acyclic, Reversed, Numbered;
      for i := 0 to |stopOrder|
        invariant Valid()
        invariant instances == Emptied(old(instances), stopOrder[..i])
        invariant forall j :: i <= j < |stopOrder| ==> ListOf(State(), stopOrder[j]) == ListOf(old(State()), stopOrder[j])
        invariant stopped == StopSequence(old(State()), stopOrder[..i])
      {
        EmptyNumbered(next);
        var serials := StopService(stopOrder[i]);
        stopped := stopped + serials;
        assert stopOrder[..i + 1][..i] == stopOrder[..i];
      }
      assert stopOrder[..|stopOrder|] == stopOrder;
      forall n ensures if n in manifest.services then n in instances && instances[n] == []
        else (n in instances <==> n in old(instances)) && ListOf(State(), n) == ListOf(old(State()), n)
      {
        EmptiedLists(old(instances), stopOrder, n);
        assert n in stopOrder <==> n in up.value by { ReversedHolds(up.value, n); }
        assert n in up.value <==> n in manifest.services;
      }
      return Ok(stopOrder), stopped;
    }

    /** Only the wish is changed; the next pass acts on it. */
    method Scale(name: Name, replicas: int) returns (known: bool)
      requires Valid()
      modifies this`manifest
      ensures Valid() && known == (name in old(manifest).services)
      ensures !known ==> manifest == old(manifest)
      ensures known ==> manifest == old(manifest).(
        services := old(manifest).services[name := old(manifest).services[name].(replicas := replicas)])
    {
      if name !in manifest.services {
        return false;
      }
      var service := manifest.services[name].(replicas := replicas);
      manifest := manifest.(services := manifest.services[name := service]);
      return true;
    }
  }

  /** What an `up` in a start order does, over all services. */
  lemma UpMeans(s: Stack, m: Manifest, order: seq<Name>, fate: nat -> Fate)
    requires IsStartOrder(m, order) && KeyedByName(m)
    ensures var v := StartedAll(s, m, order, fate);
      && (AllStart(fate, s.next, v.next) ==>
            forall n, i: nat :: n in m.services && i < m.services[n].replicas ==> Runs(ListOf(v, n), i))
      && (forall n, i: nat :: Runs(ListOf(s, n), i) ==> SameReplica(ListOf(v, n), ListOf(s, n), i))
      && (forall n :: n !in m.services ==>
            (n in v.instances <==> n in s.instances) && ListOf(v, n) == ListOf(s, n))
      && (forall a, b, x, y :: NeedsNew(m, s, v, a, b, x, y) ==> y.serial < x.serial)
  {
    var v := StartedAll(s, m, order, fate);
    hide StartedAll, Runs, AllStart, SameReplica;
    forall n, i: nat | AllStart(fate, s.next, v.next) && n in m.services && i < m.services[n].replicas
      ensures Runs(ListOf(v, n), i)
    {
      UpRunsEverything(s, m, order, fate, n, i);
    }
    forall n, i: nat | Runs(ListOf(s, n), i) ensures SameReplica(ListOf(v, n), ListOf(s, n), i) {
      UpKeepsRunning(s, m, order, fate, n, i);
    }
    forall n | n !in m.services
      ensures (n in v.instances <==> n in s.instances) && ListOf(v, n) == ListOf(s, n)
    {
      OtherListsStay(s, m, order, fate, n);
    }
    forall a, b, x, y | NeedsNew(m, s, v, a, b, x, y) ensures y.serial < x.serial {
      NeededStartsFirst(s, m, order, fate, a, b, x, y);
    }
  }

  /** `a` needs `b`, and `x` and `y` have been added to their lists. */
  ghost predicate NeedsNew(m: Manifest, s: Stack, v: Stack, a: Name, b: Name, x: Instance, y: Instance) {
    && a in m.services && Needs(m, a, b)
    && x in ListOf(v, a) && x !in ListOf(s, a)
    && y in ListOf(v, b) && y !in ListOf(s, b)
  }

  /** The list when the first `k` instances have been checked. */
  function CheckedUpTo(l: seq<Instance>, k: nat, restart: string, fate: nat -> Fate, next: nat): (seq<Instance>, nat)
    requires k <= |l|
  {
    var (r, n) := CheckedAll(l[..k], restart, fate, next);
    (r + l[k..], n)
  }

  lemma NoneChecked(l: seq<Instance>, restart: string, fate: nat -> Fate, next: nat)
    ensures CheckedUpTo(l, 0, restart, fate, next) == (l, next)
  {
    assert l[..0] == [] && [] + l[0..] == l;
  }

  lemma AllChecked(l: seq<Instance>, restart: string, fate: nat -> Fate, next: nat)
    ensures CheckedUpTo(l, |l|, restart, fate, next) == CheckedAll(l, restart, fate, next)
  {
    assert l[..|l|] == l;
    var r := CheckedAll(l, restart, fate, next).0;
    assert r + l[|l|..] == r;
  }

  lemma NextChecked(l: seq<Instance>, k: nat, restart: string, fate: nat -> Fate, next: nat)
    requires k < |l|
    ensures var (r, n) := CheckedUpTo(l, k, restart, fate, next);
      var (x, m) := Checked(l[k], restart, fate, n);
      |r| == |l| && r[k] == l[k] && CheckedUpTo(l, k + 1, restart, fate, next) == (r[k := x], m)
  {
    assert l[..k + 1][..k] == l[..k];
    hide Checked;
    var (r, n) := CheckedAll(l[..k], restart, fate, next);
    var (x, m) := Checked(l[k], restart, fate, n);
    assert CheckedAll(l[..k + 1], restart, fate, next) == (r + [x], m);
    assert (r + l[k..])[k := x] == r + [x] + l[k + 1..];
  }

  lemma ReversedHolds(s: seq<Name>, n: Name)
    ensures n in Reversed(s) <==> n in s
  {
    var r := Reversed(s);
    if k :| 0 <= k < |s| && s[k] == n {
      assert r[|s| - 1 - k] == n;
    }
  }

  lemma ReversedRepeatsNot(s: seq<Name>)
    requires NoRepeats(s)
    ensures NoRepeats(Reversed(s))
  {
    var r := Reversed(s);
    forall i, j | 0 <= i < j < |r| ensures r[i] != r[j] {
      assert s[|s| - 1 - j] != s[|s| - 1 - i];
    }
  }

  /** Replacing one instance by itself or by one with a new serial keeps the serials unique. */
  lemma OneReplaced(l: seq<Instance>, k: nat, x: Instance, next: nat, later: nat)
    requires Numbered(l, next) && k < |l| && next <= later
    requires x.serial == l[k].serial || next <= x.serial < later
    ensures Numbered(l[k := x], later)
  {
    var now := l[k := x];
    forall i, j | 0 <= i < j < |now| ensures SerialOf()(now[i]) != SerialOf()(now[j]) {
      assert SerialOf()(l[i]) != SerialOf()(l[j]);
      assert l[i] in l && l[j] in l;
    }
    forall i | i in now ensures i.serial < later {
      assert i in l || i == x;
      assert l[k] in l;
    }
  }

  lemma NextStarted(l: seq<Instance>, index: nat, replicas: int, fate: nat -> Fate, next: nat)
    requires index < replicas
    ensures StartedFrom(l, index, replicas, fate, next)
      == StartedFrom(StartedOne(l, index, fate, next).0, index + 1, replicas, fate, StartedOne(l, index, fate, next).1)
  {
  }

  lemma StartedEnd(l: seq<Instance>, index: nat, replicas: int, fate: nat -> Fate, next: nat)
    requires index >= replicas
    ensures StartedFrom(l, index, replicas, fate, next) == (l, next)
  {
  }

  lemma FirstIsFirst(l: seq<Instance>, index: nat, idx: nat)
    requires FirstWith(l, index) < |l| && idx < |l|
    requires l[idx] == l[FirstWith(l, index)] && l[FirstWith(l, index)] !in l[..idx]
    ensures idx == FirstWith(l, index)
  {
    assert forall k :: 0 <= k < idx ==> l[k] in l[..idx];
  }

  lemma OneAdded(l: seq<Instance>, x: Instance, next: nat)
    requires Numbered(l, next) && x.serial == next
    ensures Numbered(l + [x], next + 1)
  {
    assert forall i :: 0 <= i < |l| ==> l[i] in l;
  }

  lemma OneRemoved(l: seq<Instance>, at: nat, next: nat)
    requires Numbered(l, next) && at < |l|
    ensures Numbered(l[..at] + l[at + 1..], next)
  {
    var less := l[..at] + l[at + 1..];
    forall i, j | 0 <= i < j < |less| ensures SerialOf()(less[i]) != SerialOf()(less[j]) {
      assert less[i] == l[if i < at then i else i + 1] && less[j] == l[if j < at then j else j + 1];
    }
  }

  lemma LaterNumbered(l: seq<Instance>, next: nat, later: nat)
    requires Numbered(l, next) && next <= later
    ensures Numbered(l, later)
  {
  }

  lemma EmptyNumbered(next: nat)
    ensures Numbered([], next)
  {
  }

  lemma SameSerialSamePlace(l: seq<Instance>, at: nat, idx: nat, changed: Instance)
    requires DistinctBy(l, SerialOf()) && at < |l| && idx < |l|
    requires changed.serial == l[at].serial && l[at := changed][idx] == changed
    ensures idx == at
  {
    var now := l[at := changed];
    forall k | 0 <= k < |l| && k != at ensures now[k].serial != changed.serial {
      assert k < at ==> SerialOf()(l[k]) != SerialOf()(l[at]);
      assert k > at ==> SerialOf()(l[at]) != SerialOf()(l[k]);
    }
  }

  // ---- Trimming, step by step ----------------------------------------------

  /** What trimming will make of the list when the instances from `k` on have been walked over. */
  function TrimmedFrom(l: seq<Instance>, k: nat, excess: int): seq<Instance>
    requires k <= |l|
  {
    Trimmed(l[..k], excess) + l[k..]
  }

  lemma TrimNone(l: seq<Instance>, excess: int)
    ensures TrimmedFrom(l, |l|, excess) == Trimmed(l, excess)
  {
    assert l[..|l|] == l && l[|l|..] == [];
  }

  lemma TrimDone(l: seq<Instance>, k: nat, excess: int)
    requires k <= |l| && (k == 0 || excess <= 0)
    ensures TrimmedFrom(l, k, excess) == l
  {
  }

  lemma TrimNothing(l: seq<Instance>)
    ensures Trimmed(l, 0) == l
  {
  }

  lemma NextTrim(l: seq<Instance>, k: nat, excess: int)
    requires 0 < k <= |l| && excess > 0
    ensures if Active()(l[k - 1])
      then TrimmedFrom(l, k, excess) == TrimmedFrom(l[..k - 1] + l[k..], k - 1, excess - 1)
      else TrimmedFrom(l, k, excess) == TrimmedFrom(l, k - 1, excess)
  {
    assert l[..k][..k - 1] == l[..k - 1];
    if Active()(l[k - 1]) {
      var less := l[..k - 1] + l[k..];
      assert less[..k - 1] == l[..k - 1] && less[k - 1..] == l[k..];
    } else {
      assert l[k - 1..] == [l[k - 1]] + l[k..];
    }
  }
}
