/**
 What an `up` leaves behind: replicas of every service, started dependencies first, and
 nothing touched that was running.
 */
module ComposeStart {
  import opened Seqs
  import opened StartOrder
  import opened Compose
  import opened ComposeProperties

  // ---- One service after another -------------------------------------------

  ghost predicate Known(m: Manifest, order: seq<Name>) {
    forall n :: n in order ==> n in m.services && m.services[n].name == n
  }

  lemma {:induction false} StartedConcat(s: Stack, m: Manifest, a: seq<Name>, b: seq<Name>, fate: nat -> Fate)
    requires Known(m, a) && Known(m, b)
    ensures StartedAll(s, m, a + b, fate) == StartedAll(StartedAll(s, m, a, fate), m, b, fate)
    decreases |a|
  {
    if a == [] {
      assert a + b == b;
    } else {
      assert (a + b)[1..] == a[1..] + b && (a + b)[0] == a[0];
      hide StartedService;
      StartedConcat(StartedService(s, m.services[a[0]], fate), m, a[1..], b, fate);
    }
  }

  /** The lists of other services stay, and serials are only given out. */
  lemma {:induction false} OtherListsStay(s: Stack, m: Manifest, order: seq<Name>, fate: nat -> Fate, name: Name)
    requires Known(m, order)
    ensures var v := StartedAll(s, m, order, fate);
      && s.next <= v.next
      && (name !in order ==>
            (name in v.instances <==> name in s.instances) && ListOf(v, name) == ListOf(s, name))
    decreases |order|
  {
    if order != [] {
      var service := m.services[order[0]];
      var u := StartedService(s, service, fate);
      StartGivesSerials(ListOf(s, service.name), 0, service.replicas, fate, s.next);
      hide StartedFrom;
      OtherListsStay(u, m, order[1..], fate, name);
    }
  }

  /** The list of the service at place `k`, and the serials given out up to there. */
  ghost predicate StartedAt(s: Stack, v: Stack, m: Manifest, order: seq<Name>, fate: nat -> Fate, k: nat)
    requires k < |order| && Known(m, order)
  {
    var low := StartedAll(s, m, order[..k], fate).next;
    var (l, high) := StartedFrom(ListOf(s, order[k]), 0, m.services[order[k]].replicas, fate, low);
    && ListOf(v, order[k]) == l && s.next <= low <= high <= v.next
    && high == StartedAll(s, m, order[..k + 1], fate).next
  }

  lemma {:induction false} EachServiceIsStarted(s: Stack, m: Manifest, order: seq<Name>, fate: nat -> Fate, k: nat)
    requires Known(m, order) && NoRepeats(order) && k < |order|
    ensures StartedAt(s, StartedAll(s, m, order, fate), m, order, fate, k)
  {
    var name, service := order[k], m.services[order[k]];
    var before := StartedAll(s, m, order[..k], fate);
    var after := StartedService(before, service, fate);
    assert order[..k + 1] == order[..k] + [name] && order == order[..k + 1] + order[k + 1..];
    assert StartedAll(before, m, [name], fate) == after by {
      assert [name][1..] == [];
    }
    StartedConcat(s, m, order[..k], [name], fate);
    StartedConcat(s, m, order[..k + 1], order[k + 1..], fate);
    OtherListsStay(s, m, order[..k], fate, name);
    OtherListsStay(after, m, order[k + 1..], fate, name);
    StartGivesSerials(ListOf(before, name), 0, service.replicas, fate, before.next);
    hide StartedFrom, StartedAll;
  }

  // ---- What runs afterwards ------------------------------------------------

  /** If the creations succeed, every service of the order has a running replica for every index. */
  lemma {:induction false} UpRunsEverything(
    s: Stack, m: Manifest, order: seq<Name>, fate: nat -> Fate, name: Name, i: nat)
    requires Known(m, order) && NoRepeats(order) && name in order && i < m.services[name].replicas
    requires AllStart(fate, s.next, StartedAll(s, m, order, fate).next)
    ensures Runs(ListOf(StartedAll(s, m, order, fate), name), i)
  {
    var k :| 0 <= k < |order| && order[k] == name;
    EachServiceIsStarted(s, m, order, fate, k);
    var low := StartedAll(s, m, order[..k], fate).next;
    hide StartedAll, StartedFrom, Runs;
    StartRunsEveryIndex(ListOf(s, name), 0, m.services[name].replicas, fate, low, i);
  }

  /** A replica that runs is left as it is. */
  lemma {:induction false} UpKeepsRunning(
    s: Stack, m: Manifest, order: seq<Name>, fate: nat -> Fate, name: Name, i: nat)
    requires Known(m, order) && NoRepeats(order) && Runs(ListOf(s, name), i)
    ensures SameReplica(ListOf(StartedAll(s, m, order, fate), name), ListOf(s, name), i)
  {
    if name in order {
      var k :| 0 <= k < |order| && order[k] == name;
      EachServiceIsStarted(s, m, order, fate, k);
      var low := StartedAll(s, m, order[..k], fate).next;
      hide StartedAll, StartedFrom;
      StartKeepsRunning(ListOf(s, name), 0, m.services[name].replicas, fate, low, i);
    } else {
      OtherListsStay(s, m, order, fate, name);
    }
  }

  predicate SameReplica(v: seq<Instance>, l: seq<Instance>, i: nat) {
    Runs(l, i) && Runs(v, i) && v[FirstWith(v, i)] == l[FirstWith(l, i)]
  }

  // ---- Dependencies first --------------------------------------------------

  /** What a start adds to a list has a serial it has given out. */
  lemma {:induction false} StartSerials(
    l: seq<Instance>, index: nat, replicas: int, fate: nat -> Fate, next: nat, x: Instance)
    requires x in StartedFrom(l, index, replicas, fate, next).0
    ensures x in l || next <= x.serial < StartedFrom(l, index, replicas, fate, next).1
    decreases replicas - index
  {
    if index < replicas {
      var (u, n) := StartedOne(l, index, fate, next);
      MadeKeepsIndex(fate, next, index);
      StartGivesSerials(u, index + 1, replicas, fate, n);
      StartRunsIt(l, index, fate, next);
      assert x in u ==> x in l || x == Made(fate, next, index);
      hide Made;
      StartSerials(u, index + 1, replicas, fate, n, x);
    }
  }

  lemma SerialsRise(s: Stack, m: Manifest, order: seq<Name>, fate: nat -> Fate, j: nat, k: nat)
    requires Known(m, order) && j <= k <= |order|
    ensures StartedAll(s, m, order[..j], fate).next <= StartedAll(s, m, order[..k], fate).next
  {
    assert order[..k] == order[..j] + order[j..k];
    StartedConcat(s, m, order[..j], order[j..k], fate);
    OtherListsStay(StartedAll(s, m, order[..j], fate), m, order[j..k], fate, "");
  }

  /** Everything created for a service is created after everything created for what it needs. */
  lemma {:induction false} NeededStartsFirst(
    s: Stack, m: Manifest, order: seq<Name>, fate: nat -> Fate, a: Name, b: Name, x: Instance, y: Instance)
    requires IsStartOrder(m, order) && Known(m, order) && Needs(m, a, b) && a in m.services
    requires x in ListOf(StartedAll(s, m, order, fate), a) && x !in ListOf(s, a)
    requires y in ListOf(StartedAll(s, m, order, fate), b) && y !in ListOf(s, b)
    ensures y.serial < x.serial
  {
    var p :| Connects(m, p, a, b);
    var k :| 0 <= k < |order| && order[k] == a;
    NeededComesBefore(m, order, p, k);
    var j :| 0 <= j < k && order[j] == b;
    EachServiceIsStarted(s, m, order, fate, k);
    EachServiceIsStarted(s, m, order, fate, j);
    SerialsRise(s, m, order, fate, j + 1, k);
    hide Needs, Connects, NoRepeats, Grounded;
    var low, mid := StartedAll(s, m, order[..j], fate).next, StartedAll(s, m, order[..k], fate).next;
    hide StartedAll, StartedFrom;
    StartSerials(ListOf(s, b), 0, m.services[b].replicas, fate, low, y);
    StartSerials(ListOf(s, a), 0, m.services[a].replicas, fate, mid, x);
  }
}
