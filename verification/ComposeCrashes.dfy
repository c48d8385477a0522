/**
 What becomes of a compose instance whose container has ended on its own: the pass sets it to
 STOPPED before it looks at the policy, so that only `always` restarts it; under any other
 policy the STOPPED row stays in the list for ever, beside the instance added for it.
 */
module ComposeCrashes {
  import opened Seqs
  import opened StartOrder
  import opened Compose
  import opened ComposeProperties

  function Crashed(): Instance -> bool { (i: Instance) => i.state.Running? && i.container == Container(false) }

  function Dead(): Instance -> bool { (i: Instance) => i.state.Stopped? }

  /** A new instance in the place of `x`, one restart later. */
  predicate Renewed(y: Instance, x: Instance, fate: nat -> Fate, next: nat, later: nat) {
    && next <= y.serial < later
    && y == Made(fate, y.serial, x.replicaIndex).(restartCount := x.restartCount + 1)
  }

  /** In any list, any crashed instance: replaced exactly under `always`, else its row becomes STOPPED and stays. */
  lemma CrashIsRestartedIff(l: seq<Instance>, k: nat, restart: string, fate: nat -> Fate, next: nat)
    requires k < |l| && Crashed()(l[k])
    ensures var (r, n) := CheckedAll(l, restart, fate, next);
      && (Renewed(r[k], l[k], fate, next, n) <==> restart == "always")
      && (r[k] == l[k].(state := Stopped) <==> restart != "always")
  {
    RestartsInPlace(l, restart, fate, next);
    hide CheckedAll;
    var (r, n) := CheckedAll(l, restart, fate, next);
    assert Succeeds(r[k], l[k], restart, fate, next, n);
  }

  /** What the policies replace: `always` all that does not run, `on-failure` what is in ERROR or UNHEALTHY. */
  lemma ReplacedIff(l: seq<Instance>, k: nat, restart: string, fate: nat -> Fate, next: nat)
    requires k < |l|
    ensures var (r, n) := CheckedAll(l, restart, fate, next);
      var failed := l[k].state == Error || l[k].state == Unhealthy;
      && (Renewed(r[k], l[k], fate, next, n) <==>
            || (restart == "always" && (failed || l[k].state == Stopped || Crashed()(l[k])))
            || (restart == "on-failure" && failed))
      && (Renewed(r[k], l[k], fate, next, n) || r[k] == l[k] || r[k] == l[k].(state := Stopped))
  {
    RestartsInPlace(l, restart, fate, next);
    hide CheckedAll;
    var (r, n) := CheckedAll(l, restart, fate, next);
    assert Succeeds(r[k], l[k], restart, fate, next, n);
  }

  // ---- Counting the rows -----------------------------------------------------

  lemma CheckedOneDead(x: Instance, restart: string, fate: nat -> Fate, next: nat)
    ensures Dead()(Checked(x, restart, fate, next).0) <==> restart != "always" && (Dead()(x) || Crashed()(x))
    ensures !(Dead()(x) && Crashed()(x))
  {
  }

  lemma {:induction false} CheckedDead(l: seq<Instance>, restart: string, fate: nat -> Fate, next: nat)
    ensures Count(CheckedAll(l, restart, fate, next).0, Dead())
         == if restart == "always" then 0 else Count(l, Dead()) + Count(l, Crashed())
  {
    if l != [] {
      var k := |l| - 1;
      var (before, n) := CheckedAll(l[..k], restart, fate, next);
      var last := Checked(l[k], restart, fate, n).0;
      CheckedDead(l[..k], restart, fate, next);
      CheckedOneDead(l[k], restart, fate, n);
      CountAppend(before, last, Dead());
      assert CheckedAll(l, restart, fate, next).0 == before + [last];
    }
  }

  lemma {:induction false} TrimmedDead(l: seq<Instance>, excess: int)
    ensures Count(Trimmed(l, excess), Dead()) == Count(l, Dead())
    decreases |l|
  {
    if l != [] && excess > 0 {
      var k := |l| - 1;
      if Active()(l[k]) {
        TrimmedDead(l[..k], excess - 1);
      } else {
        TrimmedDead(l[..k], excess);
        CountAppend(Trimmed(l[..k], excess), l[k], Dead());
      }
    }
  }

  lemma FreshAreNotDead(fate: nat -> Fate, next: nat, low: nat, high: nat)
    requires low <= high
    ensures Count(Fresh(fate, next, low, high), Dead()) == 0
  {
    var added := Fresh(fate, next, low, high);
    assert forall k :: 0 <= k < |added| ==> added[k] == Made(fate, next + k, low + k);
    CountNone(added, Dead());
  }

  lemma ScaledDead(l: seq<Instance>, replicas: int, fate: nat -> Fate, next: nat)
    ensures Count(Scaled(l, replicas, fate, next).0, Dead()) == Count(l, Dead())
  {
    var running := Count(l, Active());
    hide Fresh, Trimmed, Count, Made, Active, Dead;
    if running < replicas {
      CountConcat(l, Fresh(fate, next, running, replicas), Dead());
      FreshAreNotDead(fate, next, running, replicas);
    } else {
      TrimmedDead(l, running - replicas);
    }
  }

  /** Under `always` a pass leaves no STOPPED row; else as many as there were and one for each crash. */
  lemma PassAccountsForCrashes(l: seq<Instance>, service: Service, fate: nat -> Fate, next: nat)
    ensures Count(Reconciled(l, service, fate, next).0, Dead())
         == if service.restart == "always" then 0 else Count(l, Dead()) + Count(l, Crashed())
  {
    var (checked, n) := CheckedAll(l, service.restart, fate, next);
    CheckedDead(l, service.restart, fate, next);
    ScaledDead(checked, service.replicas, fate, n);
  }

  // ---- Any number of passes --------------------------------------------------

  function Ended(serials: set<nat>): Instance -> Instance {
    (i: Instance) => if i.serial in serials && i.container.Container? then i.(container := Container(false)) else i
  }

  /** Some containers end, and then a pass comes, whose service may have been rescaled. */
  datatype Round = Round(ended: set<nat>, service: Service, fate: nat -> Fate, next: nat)

  function AfterRounds(l: seq<Instance>, rounds: seq<Round>): seq<Instance>
    decreases |rounds|
  {
    if rounds == [] then l
    else
      var r := rounds[0];
      AfterRounds(Reconciled(Map(l, Ended(r.ended)), r.service, r.fate, r.next).0, rounds[1..])
  }

  function CrashesIn(l: seq<Instance>, rounds: seq<Round>): nat
    decreases |rounds|
  {
    if rounds == [] then 0
    else
      var r := rounds[0];
      var seen := Map(l, Ended(r.ended));
      Count(seen, Crashed()) + CrashesIn(Reconciled(seen, r.service, r.fate, r.next).0, rounds[1..])
  }

  predicate NeverAlways(rounds: seq<Round>) {
    forall k :: 0 <= k < |rounds| ==> rounds[k].service.restart != "always"
  }

  /** Over any number of passes without `always`: one STOPPED row more for every crash. */
  lemma {:induction false} EveryCrashLeavesARow(l: seq<Instance>, rounds: seq<Round>)
    requires NeverAlways(rounds)
    ensures Count(AfterRounds(l, rounds), Dead()) == Count(l, Dead()) + CrashesIn(l, rounds)
    decreases |rounds|
  {
    if rounds != [] {
      var r := rounds[0];
      var seen := Map(l, Ended(r.ended));
      CountOfMap(l, Ended(r.ended), Dead(), Dead());
      PassAccountsForCrashes(seen, r.service, r.fate, r.next);
      assert r.service.restart != "always";
      hide Reconciled, Map;
      EveryCrashLeavesARow(Reconciled(seen, r.service, r.fate, r.next).0, rounds[1..]);
    }
  }

  lemma DeadRowIsPassedOver(l: seq<Instance>, restart: string, fate: nat -> Fate, next: nat, i: Instance)
    requires i in l && Dead()(i) && restart != "always"
    ensures i in CheckedAll(l, restart, fate, next).0
  {
    var (checked, n) := CheckedAll(l, restart, fate, next);
    RestartsInPlace(l, restart, fate, next);
    hide CheckedAll;
    var k :| 0 <= k < |l| && l[k] == i;
    assert Succeeds(checked[k], l[k], restart, fate, next, n);
    assert checked[k] == i;
  }

  lemma DeadRowSurvives(l: seq<Instance>, service: Service, fate: nat -> Fate, next: nat, i: Instance)
    requires i in l && Dead()(i) && service.restart != "always"
    ensures i in Reconciled(l, service, fate, next).0
  {
    var (checked, n) := CheckedAll(l, service.restart, fate, next);
    DeadRowIsPassedOver(l, service.restart, fate, next, i);
    hide CheckedAll;
    if Count(checked, Active()) >= service.replicas {
      TrimKeepsInactive(checked, Count(checked, Active()) - service.replicas, i);
    }
  }

  /** And each of these rows stays as it is through all later passes. */
  lemma {:induction false} StoppedRowStays(l: seq<Instance>, rounds: seq<Round>, i: Instance)
    requires NeverAlways(rounds) && i in l && Dead()(i) && i.container != Container(true)
    ensures i in AfterRounds(l, rounds)
    decreases |rounds|
  {
    if rounds != [] {
      var r := rounds[0];
      var seen := Map(l, Ended(r.ended));
      var k :| 0 <= k < |l| && l[k] == i;
      assert seen[k] == i;
      assert r.service.restart != "always";
      DeadRowSurvives(seen, r.service, r.fate, r.next, i);
      hide Reconciled, Map;
      StoppedRowStays(Reconciled(seen, r.service, r.fate, r.next).0, rounds[1..], i);
    }
  }

  // ---- One crash in a quiet list ---------------------------------------------

  lemma {:induction false} QuietButOne(
    l: seq<Instance>, x: Instance, k: nat, restart: string, fate: nat -> Fate, next: nat)
    requires k < |l| && (forall i :: i in l ==> Settled(restart)(i))
    requires Crashed()(x) && restart != "always"
    ensures CheckedAll(l[k := x], restart, fate, next) == (l[k := x.(state := Stopped)], next)
  {
    var m := |l| - 1;
    var crashed, seen := l[k := x], l[k := x.(state := Stopped)];
    if k == m {
      assert crashed[..m] == l[..m];
      SettledIsUnchecked(l[..m], restart, fate, next);
      assert l[..m] + [seen[m]] == seen;
    } else {
      assert crashed[..m] == l[..m][k := x];
      QuietButOne(l[..m], x, k, restart, fate, next);
      assert Settled(restart)(l[m]);
      assert l[..m][k := x.(state := Stopped)] + [l[m]] == seen;
    }
  }

  lemma {:induction false} CountReplaced(l: seq<Instance>, k: nat, y: Instance)
    requires k < |l| && Active()(l[k]) && !Active()(y)
    ensures Count(l[k := y], Active()) == Count(l, Active()) - 1
  {
    var m := |l| - 1;
    if k == m {
      assert l[k := y][..m] == l[..m];
    } else {
      assert l[k := y][..m] == l[..m][k := y];
      CountReplaced(l[..m], k, y);
    }
  }

  lemma SomeoneRuns(l: seq<Instance>, k: nat)
    requires k < |l| && Active()(l[k])
    ensures Count(l, Active()) > 0
  {
    CountReplaced(l, k, l[k].(state := Stopped));
  }

  /** A crash in a quiet list leaves its dead row in place and one new instance, of the last index, at the end. */
  lemma CrashLeavesOneDeadRow(l: seq<Instance>, k: nat, service: Service, fate: nat -> Fate, next: nat)
    requires Quiet(service)(l) && k < |l| && l[k].state.Running? && service.restart != "always"
    ensures service.replicas > 0
    ensures var crashed := l[k].(container := Container(false));
      Reconciled(l[k := crashed], service, fate, next)
      == (l[k := crashed.(state := Stopped)] + [Made(fate, next, service.replicas - 1)], next + 1)
  {
    SomeoneRuns(l, k);
    var crashed := l[k].(container := Container(false));
    var seen := l[k := crashed.(state := Stopped)];
    QuietButOne(l, crashed, k, service.restart, fate, next);
    CountReplaced(l, k, crashed.(state := Stopped));
    assert Fresh(fate, next, service.replicas - 1, service.replicas) == [Made(fate, next, service.replicas - 1)];
  }

  // ---- A crash under on-failure ----------------------------------------------

  const ONE_ON_FAILURE := ONE_ALWAYS.(restart := "on-failure")

  /** One instance that crashes under `on-failure`: it is not restarted, a second one is added beside it. */
  lemma OnFailureDoesNotRestart()
    ensures Reconciled(CRASHED, ONE_ON_FAILURE, FirstFails(), 2)
         == ([CRASHED[0].(state := Stopped), Instance(2, 0, Container(true), ServiceState.Running, 0)], 3)
  {
    var l := [CRASHED[0].(container := Container(true))];
    assert Settled("on-failure")(l[0]);
    CountAppend([], l[0], Active());
    assert [] + [l[0]] == l;
    assert Quiet(ONE_ON_FAILURE)(l);
    CrashLeavesOneDeadRow(l, 0, ONE_ON_FAILURE, FirstFails(), 2);
    assert l[0].(container := Container(false)) == CRASHED[0] && l[0 := CRASHED[0]] == CRASHED;
    var dead, added := CRASHED[0].(state := Stopped), Made(FirstFails(), 2, 0);
    assert l[0 := dead] + [added] == [dead, added];
  }
}
