/**
 What a compose pass and a start do: how many instances run afterwards, which ones were
 replaced, which were taken away, and when a second pass has nothing left to do.
 */
module ComposeProperties {
  import opened Seqs
  import opened StartOrder
  import opened Compose

  function Wanted(replicas: int): nat { if replicas < 0 then 0 else replicas }

  function Running(l: seq<Instance>): nat { Count(l, Active()) }

  // ---- Restarting ----------------------------------------------------------

  /** `y` is `x` as it was seen, or a new instance in its place, as the policy says. */
  predicate Succeeds(y: Instance, x: Instance, restart: string, fate: nat -> Fate, next: nat, later: nat) {
    if MustRestart(Observed(x), restart)
    then
      && next <= y.serial < later
      && y == Made(fate, y.serial, x.replicaIndex).(restartCount := x.restartCount + 1)
    else y == Observed(x)
  }

  lemma MadeKeepsIndex(fate: nat -> Fate, serial: nat, index: nat)
    ensures Made(fate, serial, index).serial == serial && Made(fate, serial, index).replicaIndex == index
  {
  }

  function Restarting(restart: string): Instance -> bool { (i: Instance) => MustRestart(Observed(i), restart) }

  lemma CheckedSucceeds(x: Instance, restart: string, fate: nat -> Fate, next: nat)
    ensures var (y, n) := Checked(x, restart, fate, next);
      && Succeeds(y, x, restart, fate, next, n)
      && y.replicaIndex == x.replicaIndex
      && n == next + if Restarting(restart)(x) then 1 else 0
  {
  }

  lemma SucceedsWithin(
    y: Instance, x: Instance, restart: string, fate: nat -> Fate, next: nat, later: nat, low: nat, high: nat)
    requires Succeeds(y, x, restart, fate, next, later) && low <= next && later <= high
    ensures Succeeds(y, x, restart, fate, low, high)
  {
  }

  /** Every instance keeps its place and index; a restart adds one to its count and takes the next serial. */
  lemma {:induction false} RestartsInPlace(l: seq<Instance>, restart: string, fate: nat -> Fate, next: nat)
    ensures var (r, n) := CheckedAll(l, restart, fate, next);
      && |r| == |l|
      && (forall k :: 0 <= k < |l| ==> Succeeds(r[k], l[k], restart, fate, next, n))
      && (forall k :: 0 <= k < |l| ==> r[k].replicaIndex == l[k].replicaIndex)
      && n == next + Count(l, Restarting(restart))
  {
    if l != [] {
      var k := |l| - 1;
      var r, n := CheckedAll(l[..k], restart, fate, next).0, CheckedAll(l[..k], restart, fate, next).1;
      var y, m := Checked(l[k], restart, fate, n).0, Checked(l[k], restart, fate, n).1;
      RestartsInPlace(l[..k], restart, fate, next);
      CheckedSucceeds(l[k], restart, fate, n);
      assert CheckedAll(l, restart, fate, next) == (r + [y], m);
      assert Count(l, Restarting(restart)) == Count(l[..k], Restarting(restart)) +
        if Restarting(restart)(l[k]) then 1 else 0;
      hide *;
      forall j | 0 <= j < k ensures Succeeds(r[j], l[j], restart, fate, next, m) {
        SucceedsWithin(r[j], l[j], restart, fate, next, n, next, m);
      }
      SucceedsWithin(y, l[k], restart, fate, n, m, next, m);
    }
  }

  // ---- Scaling -------------------------------------------------------------

  function Actives(l: seq<Instance>): seq<Instance> { Filter(l, Active()) }

  function Others(l: seq<Instance>): seq<Instance> { Filter(l, Inactive()) }

  /** How the last instance counts. */
  lemma LastInstance(l: seq<Instance>, x: Instance)
    ensures Actives(l + [x]) == if Active()(x) then Actives(l) + [x] else Actives(l)
    ensures Others(l + [x]) == if Active()(x) then Others(l) else Others(l) + [x]
  {
    FilterAppend(l, x, Active());
    FilterAppend(l, x, Inactive());
    assert Active()(x) <==> !Inactive()(x);
  }

  lemma NoActives()
    ensures Actives([]) == []
  {
  }

  /** Of the active instances the first are kept, without the last `excess`; the others stay as they were. */
  lemma {:induction false} TrimKeepsTheFirst(l: seq<Instance>, excess: int)
    requires 0 <= excess <= |Actives(l)|
    ensures Actives(Trimmed(l, excess)) <= Actives(l)
    ensures |Actives(Trimmed(l, excess))| == |Actives(l)| - excess
    ensures Others(Trimmed(l, excess)) == Others(l)
    decreases |l|
  {
    NoneToTrim(l);
    NoActives();
    hide *;
    if excess > 0 {
      var n := |l| - 1;
      assert l == l[..n] + [l[n]];
      TrimLast(l, excess);
      LastInstance(l[..n], l[n]);
      if Active()(l[n]) {
        TrimKeepsTheFirst(l[..n], excess - 1);
      } else {
        TrimKeepsTheFirst(l[..n], excess);
        LastInstance(Trimmed(l[..n], excess), l[n]);
      }
    }
  }

  lemma TrimLast(l: seq<Instance>, excess: int)
    requires l != [] && excess > 0
    ensures Trimmed(l, excess)
      == if Active()(l[|l| - 1]) then Trimmed(l[..|l| - 1], excess - 1) else Trimmed(l[..|l| - 1], excess) + [l[|l| - 1]]
  {
  }

  /** Creations that end with a running instance. */
  predicate AllStart(fate: nat -> Fate, low: nat, high: nat) { forall n :: low <= n < high ==> fate(n).Starts? }

  lemma {:induction false} FreshRunning(fate: nat -> Fate, next: nat, low: nat, high: nat)
    requires low <= high
    ensures Running(Fresh(fate, next, low, high)) <= high - low
    ensures Running(Fresh(fate, next, low, high)) == high - low <==> AllStart(fate, next, next + (high - low))
    decreases high
  {
    if low < high {
      var rest := Fresh(fate, next, low, high - 1);
      var last := Made(fate, next + (high - 1 - low), high - 1);
      assert Fresh(fate, next, low, high) == rest + [last];
      CountAppend(rest, last, Active());
      FreshRunning(fate, next, low, high - 1);
      assert Active()(last) <==> fate(next + (high - 1 - low)).Starts?;
    }
  }

  lemma {:induction false} TrimCount(l: seq<Instance>, excess: nat)
    ensures Running(Trimmed(l, excess)) == if excess <= Running(l) then Running(l) - excess else 0
    decreases |l|
  {
    if l != [] && excess > 0 {
      var n := |l| - 1;
      if Active()(l[n]) {
        TrimCount(l[..n], excess - 1);
      } else {
        TrimCount(l[..n], excess);
        CountAppend(Trimmed(l[..n], excess), l[n], Active());
      }
    }
  }

  /** After scaling at most the wanted number runs, and exactly that number iff every addition started. */
  lemma ScaledReachesReplicas(l: seq<Instance>, replicas: int, fate: nat -> Fate, next: nat)
    ensures var (r, m) := Scaled(l, replicas, fate, next);
      && next <= m
      && Running(r) <= Wanted(replicas)
      && (Running(r) == Wanted(replicas) <==> AllStart(fate, next, m))
  {
    var running := Running(l);
    if running < replicas {
      FreshRunning(fate, next, running, replicas);
      CountConcat(l, Fresh(fate, next, running, replicas), Active());
    } else {
      TrimCount(l, running - replicas);
    }
  }

  lemma PassReachesReplicas(l: seq<Instance>, service: Service, fate: nat -> Fate, next: nat)
    ensures var n := CheckedAll(l, service.restart, fate, next).1;
      var (r, m) := Reconciled(l, service, fate, next);
      && next <= n <= m
      && Running(r) <= Wanted(service.replicas)
      && (Running(r) == Wanted(service.replicas) <==> AllStart(fate, n, m))
  {
    var (checked, n) := CheckedAll(l, service.restart, fate, next);
    hide CheckedAll, Scaled;
    ScaledReachesReplicas(checked, service.replicas, fate, n);
  }

  /** Asking for more than there is takes away all there is. */
  lemma {:induction false} TrimMore(l: seq<Instance>, excess: int)
    requires excess >= Running(l)
    ensures Trimmed(l, excess) == Trimmed(l, Running(l))
    decreases |l|
  {
    if l != [] && excess > 0 {
      var n := |l| - 1;
      if Active()(l[n]) {
        TrimMore(l[..n], excess - 1);
      } else {
        TrimMore(l[..n], excess);
        if Running(l) == 0 {
          NoneToTrim(l[..n]);
        }
      }
    }
  }

  lemma {:induction false} NoneToTrim(l: seq<Instance>)
    ensures Trimmed(l, 0) == l
  {
  }

  // ---- The fixpoint --------------------------------------------------------

  /** Nothing a pass would act on. */
  ghost function Quiet(service: Service): seq<Instance> -> bool {
    (l: seq<Instance>) =>
      && (forall i :: i in l ==> Settled(service.restart)(i))
      && Running(l) == Wanted(service.replicas)
  }

  function Settled(restart: string): Instance -> bool { (i: Instance) => Observed(i) == i && !MustRestart(i, restart) }

  lemma {:induction false} SettledIsUnchecked(l: seq<Instance>, restart: string, fate: nat -> Fate, next: nat)
    requires forall i :: i in l ==> Settled(restart)(i)
    ensures CheckedAll(l, restart, fate, next) == (l, next)
  {
    if l != [] {
      SettledIsUnchecked(l[..|l| - 1], restart, fate, next);
      assert Settled(restart)(l[|l| - 1]) && l[..|l| - 1] + [l[|l| - 1]] == l;
    }
  }

  lemma UncheckedIsSettled(l: seq<Instance>, restart: string, fate: nat -> Fate, next: nat)
    requires CheckedAll(l, restart, fate, next).1 == next
    ensures forall k :: 0 <= k < |l| ==>
      CheckedAll(l, restart, fate, next).0[k] == Observed(l[k]) && Settled(restart)(Observed(l[k]))
  {
    RestartsInPlace(l, restart, fate, next);
    hide CheckedAll;
    forall k | 0 <= k < |l|
      ensures CheckedAll(l, restart, fate, next).0[k] == Observed(l[k]) && Settled(restart)(Observed(l[k]))
    {
      assert Succeeds(CheckedAll(l, restart, fate, next).0[k], l[k], restart, fate, next, next);
    }
  }

  lemma {:induction false} TrimLength(l: seq<Instance>, excess: nat)
    ensures |Trimmed(l, excess)| == |l| - if excess <= Running(l) then excess else Running(l)
    decreases |l|
  {
    if l != [] && excess > 0 {
      var n := |l| - 1;
      if Active()(l[n]) {
        TrimLength(l[..n], excess - 1);
      } else {
        TrimLength(l[..n], excess);
      }
    }
  }

  /** Scaling changes nothing exactly when the wanted number runs. */
  lemma ScaledDoesNothingIff(l: seq<Instance>, replicas: int, fate: nat -> Fate, next: nat)
    ensures var (r, m) := Scaled(l, replicas, fate, next);
      && (Running(l) == Wanted(replicas) ==> (r, m) == (l, next))
      && (m == next && |r| == |l| ==> Running(l) == Wanted(replicas))
  {
    var running := Running(l);
    if running >= replicas {
      TrimLength(l, running - replicas);
      if running == Wanted(replicas) {
        if replicas < 0 {
          TrimMore(l, running - replicas);
        }
        NoneToTrim(l);
      }
    }
  }

  lemma QuietIsIdle(l: seq<Instance>, service: Service, fate: nat -> Fate, next: nat)
    requires Quiet(service)(l)
    ensures Reconciled(l, service, fate, next) == (l, next)
  {
    SettledIsUnchecked(l, service.restart, fate, next);
    ScaledDoesNothingIff(l, service.replicas, fate, next);
  }

  lemma IdleIsQuiet(l: seq<Instance>, service: Service, fate: nat -> Fate, next: nat)
    requires Reconciled(l, service, fate, next) == (l, next)
    ensures Quiet(service)(l)
  {
    var (checked, n) := CheckedAll(l, service.restart, fate, next);
    ScaledReachesReplicas(checked, service.replicas, fate, n);
    UncheckedIsSettled(l, service.restart, fate, next);
    ScaledDoesNothingIff(checked, service.replicas, fate, next);
    hide CheckedAll;
    assert Running(checked) == Wanted(service.replicas);
    assert checked == l;
  }

  /** A pass changes nothing exactly when the list is quiet. */
  lemma PassDoesNothingIff(l: seq<Instance>, service: Service, fate: nat -> Fate, next: nat)
    ensures Reconciled(l, service, fate, next) == (l, next) <==> Quiet(service)(l)
  {
    hide Reconciled, Quiet;
    if Quiet(service)(l) {
      QuietIsIdle(l, service, fate, next);
    }
    if Reconciled(l, service, fate, next) == (l, next) {
      IdleIsQuiet(l, service, fate, next);
    }
  }

  /** With every creation succeeding one pass is enough: the wanted number runs and the next does nothing. */
  lemma OnePassIsEnough(l: seq<Instance>, service: Service, fate: nat -> Fate, next: nat)
    requires AllStart(fate, next, Reconciled(l, service, fate, next).1)
    ensures var (r, m) := Reconciled(l, service, fate, next);
      Running(r) == Wanted(service.replicas) && Reconciled(r, service, fate, m) == (r, m)
  {
    var (r, m) := Reconciled(l, service, fate, next);
    PassReachesReplicas(l, service, fate, next);
    PassDoesNothingIff(r, service, fate, m);
    forall i | i in r ensures Settled(service.restart)(i) {
      PassLeavesSettled(l, service, fate, next, i);
    }
  }

  /** `serial` was given to the replacement of instance `k`. */
  ghost predicate Replaces(l: seq<Instance>, restart: string, fate: nat -> Fate, next: nat, serial: nat, k: nat) {
    && k < |l| && MustRestart(Observed(l[k]), restart)
    && CheckedAll(l, restart, fate, next).0[k]
       == Made(fate, serial, l[k].replicaIndex).(restartCount := l[k].restartCount + 1)
  }

  /** Every serial a check has given out is that of a replacement. */
  lemma {:induction false} SerialIsReplacement(
    l: seq<Instance>, restart: string, fate: nat -> Fate, next: nat, serial: nat)
    requires next <= serial < CheckedAll(l, restart, fate, next).1
    ensures exists k: nat :: Replaces(l, restart, fate, next, serial, k)
  {
    var last := |l| - 1;
    if serial < CheckedAll(l[..last], restart, fate, next).1 {
      SerialIsReplacement(l[..last], restart, fate, next, serial);
      var k: nat :| Replaces(l[..last], restart, fate, next, serial, k);
      assert Replaces(l, restart, fate, next, serial, k);
    } else {
      assert Replaces(l, restart, fate, next, serial, last);
    }
  }

  lemma {:induction false} TrimKeepsInactive(l: seq<Instance>, excess: int, i: Instance)
    requires i in l && !Active()(i)
    ensures i in Trimmed(l, excess)
    decreases |l|
  {
    if excess > 0 {
      var n := |l| - 1;
      if i in l[..n] {
        TrimKeepsInactive(l[..n], if Active()(l[n]) then excess - 1 else excess, i);
      } else {
        assert i == l[n];
      }
    }
  }

  lemma FailedIsUnsettled(fate: nat -> Fate, serial: nat, x: Instance, restart: string)
    requires MustRestart(Observed(x), restart) && !fate(serial).Starts?
    ensures var failed := Made(fate, serial, x.replicaIndex).(restartCount := x.restartCount + 1);
      !(Active()(failed) || Settled(restart)(failed))
  {
  }

  /** A replacement that did not start stays in the list and is due for the next restart. */
  lemma FailedRestartStays(l: seq<Instance>, service: Service, fate: nat -> Fate, next: nat, serial: nat)
    requires next <= serial < CheckedAll(l, service.restart, fate, next).1 && !fate(serial).Starts?
    ensures !Quiet(service)(Reconciled(l, service, fate, next).0)
  {
    var (checked, n) := CheckedAll(l, service.restart, fate, next);
    SerialIsReplacement(l, service.restart, fate, next, serial);
    var k: nat :| Replaces(l, service.restart, fate, next, serial, k);
    var failed := checked[k];
    FailedIsUnsettled(fate, serial, l[k], service.restart);
    assert failed in checked;
    hide CheckedAll, Settled, Active, Replaces;
    if Running(checked) >= service.replicas {
      TrimKeepsInactive(checked, Running(checked) - service.replicas, failed);
    }
    assert failed in Reconciled(l, service, fate, next).0;
  }

  /** A second pass does nothing exactly when every creation of the first one succeeded. */
  lemma SecondPassDoesNothingIff(l: seq<Instance>, service: Service, fate: nat -> Fate, next: nat)
    ensures var (r, m) := Reconciled(l, service, fate, next);
      Reconciled(r, service, fate, m) == (r, m) <==> AllStart(fate, next, m)
  {
    var n := CheckedAll(l, service.restart, fate, next).1;
    var (r, m) := Reconciled(l, service, fate, next);
    PassReachesReplicas(l, service, fate, next);
    PassDoesNothingIff(r, service, fate, m);
    if AllStart(fate, next, m) {
      OnePassIsEnough(l, service, fate, next);
    } else {
      var serial :| next <= serial < m && !fate(serial).Starts?;
      hide Reconciled, CheckedAll;
      if serial < n {
        FailedRestartStays(l, service, fate, next, serial);
      }
    }
  }

  // ---- A pass that leaves work behind --------------------------------------

  /** Only the creation of instance 1 fails. */
  function FirstFails(): nat -> Fate { (serial: nat) => if serial == 1 then CannotStart else Starts }

  const CRASHED := [Instance(0, 0, Container(false), ServiceState.Running, 0)]

  const ONE_ALWAYS := Service("web", 50, 64, "always", 1, [])

  /** One crashed instance whose restart fails: the wanted number runs, and the second pass still acts. */
  lemma FailedRestartLeavesWork()
    ensures var (r, m) := Reconciled(CRASHED, ONE_ALWAYS, FirstFails(), 1);
      Running(r) == Wanted(ONE_ALWAYS.replicas) && Reconciled(r, ONE_ALWAYS, FirstFails(), m) != (r, m)
  {
    var fate := FirstFails();
    var failed := Instance(1, 0, NoContainer, Error, 1);
    assert |CRASHED| == 1 && CRASHED[..0] == [];
    assert CheckedAll(CRASHED[..0], "always", fate, 1) == ([], 1);
    assert Checked(CRASHED[0], "always", fate, 1) == (failed, 2);
    assert CheckedAll(CRASHED, "always", fate, 1) == ([] + [failed], 2);
    CountAppend([], failed, Active());
    assert [] + [failed] == [failed] && Running([failed]) == 0;
    assert Scaled([failed], 1, fate, 2).1 == 3;
    PassReachesReplicas(CRASHED, ONE_ALWAYS, fate, 1);
    SecondPassDoesNothingIff(CRASHED, ONE_ALWAYS, fate, 1);
    assert !AllStart(fate, 1, 3) by { assert !fate(1).Starts?; }
  }

  lemma StartedIsSettled(fate: nat -> Fate, serial: nat, index: nat, count: nat, restart: string)
    requires fate(serial).Starts?
    ensures Settled(restart)(Made(fate, serial, index))
    ensures Settled(restart)(Made(fate, serial, index).(restartCount := count))
  {
  }

  lemma SuccessorIsSettled(y: Instance, x: Instance, restart: string, fate: nat -> Fate, next: nat, later: nat)
    requires Succeeds(y, x, restart, fate, next, later) && AllStart(fate, next, later)
    ensures Settled(restart)(y)
  {
    if MustRestart(Observed(x), restart) {
      StartedIsSettled(fate, y.serial, x.replicaIndex, x.restartCount + 1, restart);
    }
  }

  lemma PassLeavesSettled(l: seq<Instance>, service: Service, fate: nat -> Fate, next: nat, i: Instance)
    requires AllStart(fate, next, Reconciled(l, service, fate, next).1)
    requires i in Reconciled(l, service, fate, next).0
    ensures Settled(service.restart)(i)
  {
    var (checked, n) := CheckedAll(l, service.restart, fate, next);
    var m := Scaled(checked, service.replicas, fate, n).1;
    ScaledComesFrom(checked, service.replicas, fate, n, i);
    ScaledReachesReplicas(checked, service.replicas, fate, n);
    RestartsInPlace(l, service.restart, fate, next);
    assert AllStart(fate, next, n);
    hide CheckedAll, Scaled, Made, Succeeds, Settled;
    if i in checked {
      var k :| 0 <= k < |checked| && checked[k] == i;
      SuccessorIsSettled(checked[k], l[k], service.restart, fate, next, n);
    } else {
      var serial: nat, index: nat :| n <= serial < m && i == Made(fate, serial, index);
      StartedIsSettled(fate, serial, index, 0, service.restart);
    }
  }

  lemma ScaledComesFrom(l: seq<Instance>, replicas: int, fate: nat -> Fate, next: nat, i: Instance)
    requires i in Scaled(l, replicas, fate, next).0
    ensures i in l
      || exists serial, index :: next <= serial < Scaled(l, replicas, fate, next).1 && i == Made(fate, serial, index)
  {
    var running := Count(l, Active());
    if running < replicas {
      if i !in l {
        var added := Fresh(fate, next, running, replicas);
        var k :| 0 <= k < |added| && added[k] == i;
        assert i == Made(fate, next + k, running + k);
      }
    } else {
      TrimmedComesFrom(l, running - replicas, i);
    }
  }

  lemma {:induction false} TrimmedComesFrom(l: seq<Instance>, excess: int, i: Instance)
    requires i in Trimmed(l, excess)
    ensures i in l
    decreases |l|
  {
    if l != [] && excess > 0 {
      var n := |l| - 1;
      if Active()(l[n]) {
        TrimmedComesFrom(l[..n], excess - 1, i);
      } else if i != l[n] {
        TrimmedComesFrom(l[..n], excess, i);
      }
    }
  }

  // ---- All services --------------------------------------------------------

  /** The pass handles the services one after another; each list is handled once, on its own. */
  lemma {:induction false} EveryServiceIsReconciled(
    s: Stack, m: Manifest, names: seq<Name>, fate: nat -> Fate, name: Name)
    requires (forall n :: n in names ==> n in m.services) && NoRepeats(names)
    ensures var v := ReconciledAll(s, m, names, fate);
      && s.next <= v.next
      && (name !in names ==> ListOf(v, name) == ListOf(s, name))
      && (name in names ==>
            exists next :: s.next <= next <= v.next
              && ListOf(v, name) == Reconciled(ListOf(s, name), m.services[name], fate, next).0
              && next <= Reconciled(ListOf(s, name), m.services[name], fate, next).1 <= v.next)
    decreases |names|
  {
    hide Reconciled, ReconciledAll, ReconciledOne;
    FirstReconciled(s, m, names, fate);
    if names != [] {
      var first := names[0];
      var u := ReconciledOne(s, m.services[first], first, fate);
      PassReachesReplicas(ListOf(s, first), m.services[first], fate, s.next);
      assert NoRepeats(names[1..]) by {
        assert forall i :: 0 <= i < |names[1..]| ==> names[1..][i] == names[i + 1];
      }
      assert names == [first] + names[1..];
      EveryServiceIsReconciled(u, m, names[1..], fate, name);
      var v := ReconciledAll(s, m, names, fate);
      if name in names[1..] {
        var next :| u.next <= next <= v.next
          && ListOf(v, name) == Reconciled(ListOf(u, name), m.services[name], fate, next).0
          && next <= Reconciled(ListOf(u, name), m.services[name], fate, next).1 <= v.next;
        assert name != first && ListOf(u, name) == ListOf(s, name);
      } else if name == first {
        assert ListOf(v, name) == Reconciled(ListOf(s, name), m.services[name], fate, s.next).0;
        assert s.next <= Reconciled(ListOf(s, name), m.services[name], fate, s.next).1 <= v.next;
      }
    }
  }

  lemma FirstReconciled(s: Stack, m: Manifest, names: seq<Name>, fate: nat -> Fate)
    requires forall n :: n in names ==> n in m.services
    ensures if names == [] then ReconciledAll(s, m, names, fate) == s
      else
        var u := ReconciledOne(s, m.services[names[0]], names[0], fate);
        && ReconciledAll(s, m, names, fate) == ReconciledAll(u, m, names[1..], fate)
        && (ListOf(u, names[0]), u.next) == Reconciled(ListOf(s, names[0]), m.services[names[0]], fate, s.next)
        && forall n :: n != names[0] ==> ListOf(u, n) == ListOf(s, n)
  {
    hide Reconciled;
  }

  /** After a pass no service runs more than it wants; with every creation succeeding, all run what they want. */
  lemma WholePass(s: Stack, m: Manifest, fate: nat -> Fate, name: Name)
    requires WellFormed(m) && name in m.services
    ensures var v := ReconciledAll(s, m, m.names, fate);
      var l := ListOf(v, name);
      && Running(l) <= Wanted(m.services[name].replicas)
      && (AllStart(fate, s.next, v.next) ==> Quiet(m.services[name])(l))
  {
    var v := ReconciledAll(s, m, m.names, fate);
    EveryServiceIsReconciled(s, m, m.names, fate, name);
    var next :| s.next <= next <= v.next
      && ListOf(v, name) == Reconciled(ListOf(s, name), m.services[name], fate, next).0
      && next <= Reconciled(ListOf(s, name), m.services[name], fate, next).1 <= v.next;
    hide ReconciledAll;
    PassReachesReplicas(ListOf(s, name), m.services[name], fate, next);
    if AllStart(fate, s.next, v.next) {
      OnePassIsEnough(ListOf(s, name), m.services[name], fate, next);
      PassDoesNothingIff(ListOf(v, name), m.services[name], fate,
                         Reconciled(ListOf(s, name), m.services[name], fate, next).1);
    }
  }

  /** When every service is quiet and known to the engine, a whole pass changes nothing. */
  lemma {:induction false} QuietStackStays(s: Stack, m: Manifest, names: seq<Name>, fate: nat -> Fate)
    requires forall n :: n in names ==> n in m.services && n in s.instances && Quiet(m.services[n])(s.instances[n])
    ensures ReconciledAll(s, m, names, fate) == s
    decreases |names|
  {
    hide Quiet;
    if names != [] {
      var name := names[0];
      PassDoesNothingIff(s.instances[name], m.services[name], fate, s.next);
      hide Reconciled;
      assert s.instances[name := s.instances[name]] == s.instances;
      assert ReconciledOne(s, m.services[name], name, fate) == s;
      QuietStackStays(s, m, names[1..], fate);
    }
  }

  /** With every creation succeeding, the second of two passes changes nothing at all. */
  lemma {:induction false} SecondWholePassDoesNothing(s: Stack, m: Manifest, fate: nat -> Fate)
    requires WellFormed(m)
    requires AllStart(fate, s.next, ReconciledAll(s, m, m.names, fate).next)
    ensures var v := ReconciledAll(s, m, m.names, fate);
      ReconciledAll(v, m, m.names, fate) == v
  {
    var v := ReconciledAll(s, m, m.names, fate);
    forall n | n in m.names ensures n in v.instances && Quiet(m.services[n])(v.instances[n]) {
      WholePass(s, m, fate, n);
      EveryServiceHasAList(s, m, m.names, fate, n);
    }
    hide ReconciledAll;
    QuietStackStays(v, m, m.names, fate);
  }

  lemma {:induction false} EveryServiceHasAList(
    s: Stack, m: Manifest, names: seq<Name>, fate: nat -> Fate, name: Name)
    requires forall n :: n in names ==> n in m.services
    ensures name in names || name in s.instances ==> name in ReconciledAll(s, m, names, fate).instances
    decreases |names|
  {
    if names != [] {
      hide Reconciled;
      EveryServiceHasAList(ReconciledOne(s, m.services[names[0]], names[0], fate), m, names[1..], fate, name);
    }
  }

  // ---- Starting ------------------------------------------------------------

  predicate Runs(l: seq<Instance>, index: nat) { StateAt(l, index).Running? }

  function StateAt(l: seq<Instance>, index: nat): ServiceState {
    if FirstWith(l, index) < |l| then l[FirstWith(l, index)].state else Pending
  }

  /** Starting one replica touches the instances of no other index. */
  lemma StartTouchesOneIndex(l: seq<Instance>, index: nat, fate: nat -> Fate, next: nat, other: nat)
    requires other != index
    ensures var (r, n) := StartedOne(l, index, fate, next);
      && |l| <= |r|
      && (Runs(l, other) ==> Runs(r, other) && r[FirstWith(r, other)] == l[FirstWith(l, other)])
  {
    var (r, n) := StartedOne(l, index, fate, next);
    MadeKeepsIndex(fate, next, index);
    hide Made;
    if Runs(l, other) {
      FirstIs(r, other, FirstWith(l, other));
    }
  }

  lemma FirstIs(l: seq<Instance>, index: nat, p: nat)
    requires p < |l| && l[p].replicaIndex == index
    requires forall k :: 0 <= k < p ==> l[k].replicaIndex != index
    ensures FirstWith(l, index) == p
  {
  }

  lemma StartRunsIt(l: seq<Instance>, index: nat, fate: nat -> Fate, next: nat)
    ensures var (r, n) := StartedOne(l, index, fate, next);
      && next <= n <= next + 1
      && (n == next ==> Runs(l, index)) && (Runs(l, index) ==> r == l)
      && (fate(next).Starts? ==> Runs(r, index))
  {
    var (r, n) := StartedOne(l, index, fate, next);
    FirstIs(r, index, FirstWith(l, index));
  }

  lemma {:induction false} StartGivesSerials(l: seq<Instance>, index: nat, replicas: int, fate: nat -> Fate, next: nat)
    ensures next <= StartedFrom(l, index, replicas, fate, next).1
    decreases replicas - index
  {
    if index < replicas {
      var (u, n) := StartedOne(l, index, fate, next);
      StartGivesSerials(u, index + 1, replicas, fate, n);
    }
  }

  /** A start leaves every running replica alone. */
  lemma {:induction false} StartKeepsRunning(
    l: seq<Instance>, index: nat, replicas: int, fate: nat -> Fate, next: nat, i: nat)
    requires Runs(l, i)
    ensures var r := StartedFrom(l, index, replicas, fate, next).0;
      Runs(r, i) && r[FirstWith(r, i)] == l[FirstWith(l, i)]
    decreases replicas - index
  {
    if index < replicas {
      var (u, n) := StartedOne(l, index, fate, next);
      StartRunsIt(l, index, fate, next);
      if i != index {
        StartTouchesOneIndex(l, index, fate, next, i);
      }
      hide StartedOne;
      StartKeepsRunning(u, index + 1, replicas, fate, n, i);
    }
  }

  /** If its creations succeed, a start runs a replica of every index below the number. */
  lemma {:induction false} StartRunsEveryIndex(
    l: seq<Instance>, index: nat, replicas: int, fate: nat -> Fate, next: nat, i: nat)
    requires index <= i < replicas && AllStart(fate, next, StartedFrom(l, index, replicas, fate, next).1)
    ensures Runs(StartedFrom(l, index, replicas, fate, next).0, i)
    decreases replicas - index
  {
    var u, n := StartedOne(l, index, fate, next).0, StartedOne(l, index, fate, next).1;
    var m := StartedFrom(u, index + 1, replicas, fate, n).1;
    StartGivesSerials(u, index + 1, replicas, fate, n);
    StartRunsIt(l, index, fate, next);
    StartUnfolds(l, index, replicas, fate, next);
    AllStartLater(fate, next, n, m);
    hide *;
    if i == index {
      StartKeepsRunning(u, index + 1, replicas, fate, n, i);
    } else {
      StartRunsEveryIndex(u, index + 1, replicas, fate, n, i);
    }
  }

  lemma StartUnfolds(l: seq<Instance>, index: nat, replicas: int, fate: nat -> Fate, next: nat)
    requires index < replicas
    ensures StartedFrom(l, index, replicas, fate, next)
      == StartedFrom(StartedOne(l, index, fate, next).0, index + 1, replicas, fate, StartedOne(l, index, fate, next).1)
  {
  }

  lemma AllStartLater(fate: nat -> Fate, low: nat, mid: nat, high: nat)
    requires AllStart(fate, low, high) && low <= mid <= high
    ensures AllStart(fate, mid, high) && (low < mid ==> fate(low).Starts?)
  {
  }

  // ---- Stopping ------------------------------------------------------------

  lemma Regroup(x: seq<nat>, y: seq<nat>, z: seq<nat>)
    ensures x + (y + z) == x + y + z
  {
  }

  lemma LastStops(s: Stack, order: seq<Name>, last: Name)
    ensures StopSequence(s, order + [last]) == StopSequence(s, order) + Map(ListOf(s, last), SerialOf())
  {
    assert (order + [last])[..|order|] == order;
  }

  lemma {:induction false} StopSequenceConcat(s: Stack, a: seq<Name>, b: seq<Name>)
    ensures StopSequence(s, a + b) == StopSequence(s, a) + StopSequence(s, b)
  {
    if b == [] {
      assert a + b == a;
    } else {
      var init, last := b[..|b| - 1], b[|b| - 1];
      assert b == init + [last] && a + b == a + init + [last];
      hide *;
      StopSequenceConcat(s, a, init);
      LastStops(s, a + init, last);
      LastStops(s, init, last);
      Regroup(StopSequence(s, a), StopSequence(s, init), Map(ListOf(s, last), SerialOf()));
    }
  }

  function Serials(s: Stack, name: Name): seq<nat> { Map(ListOf(s, name), SerialOf()) }

  predicate Parts(whole: seq<nat>, x: seq<nat>, a: seq<nat>, y: seq<nat>, b: seq<nat>, z: seq<nat>) {
    whole == x + a + (y + b + z)
  }

  /** All of `a` comes before all of `b`. */
  ghost predicate Precedes(whole: seq<nat>, a: seq<nat>, b: seq<nat>) { exists x, y, z :: Parts(whole, x, a, y, b, z) }

  lemma StopSequenceSplit(s: Stack, init: seq<Name>, name: Name, rest: seq<Name>)
    ensures StopSequence(s, init + [name] + rest)
      == StopSequence(s, init) + Serials(s, name) + StopSequence(s, rest)
  {
    LastStops(s, init, name);
    hide StopSequence;
    StopSequenceConcat(s, init + [name], rest);
  }

  lemma InParts(whole: seq<nat>, x: seq<nat>, a: seq<nat>, rest: seq<nat>, y: seq<nat>, b: seq<nat>, z: seq<nat>)
    requires whole == x + a + rest && rest == y + b + z
    ensures Precedes(whole, a, b)
  {
    assert Parts(whole, x, a, y, b, z);
  }

  lemma CutAtTwo(order: seq<Name>, i: nat, j: nat)
    requires i < j < |order|
    ensures order == order[..i] + [order[i]] + (order[i + 1..j] + [order[j]] + order[j + 1..])
  {
  }

  lemma PartsPrecede(s: Stack, x: seq<Name>, a: Name, y: seq<Name>, b: Name, z: seq<Name>)
    ensures Precedes(StopSequence(s, x + [a] + (y + [b] + z)), Serials(s, a), Serials(s, b))
  {
    hide *;
    StopSequenceSplit(s, x, a, y + [b] + z);
    StopSequenceSplit(s, y, b, z);
    InParts(StopSequence(s, x + [a] + (y + [b] + z)), StopSequence(s, x), Serials(s, a), StopSequence(s, y + [b] + z),
            StopSequence(s, y), Serials(s, b), StopSequence(s, z));
  }

  /** In the stops of a `down` all instances of a service come before all instances of what it needs. */
  lemma DependentsStopFirst(s: Stack, m: Manifest, up: seq<Name>, a: Name, b: Name)
    requires IsStartOrder(m, up) && Needs(m, a, b) && a in m.services && b in m.services
    ensures Precedes(StopSequence(s, Reversed(up)), Serials(s, a), Serials(s, b))
  {
    var order := Reversed(up);
    var k :| 0 <= k < |up| && up[k] == a;
    var l :| 0 <= l < |up| && up[l] == b;
    var i, j := |up| - 1 - k, |up| - 1 - l;
    assert order[i] == a && order[j] == b;
    StopsBeforeWhatItNeeds(m, up, a, b, i, j);
    hide *;
    CutAtTwo(order, i, j);
    PartsPrecede(s, order[..i], a, order[i + 1..j], b, order[j + 1..]);
  }

  /** Every service stopped has an empty list, every other keeps its own. */
  lemma {:induction false} EmptiedLists(instances: map<Name, seq<Instance>>, order: seq<Name>, name: Name)
    ensures var v := Emptied(instances, order);
      if name in order then name in v && v[name] == []
      else (name in v <==> name in instances) && (name in v ==> v[name] == instances[name])
  {
    if order != [] {
      var n := |order| - 1;
      EmptiedLists(instances, order[..n], name);
      assert order == order[..n] + [order[n]];
    }
  }
}
