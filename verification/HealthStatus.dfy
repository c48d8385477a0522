/**
 The health checker of one container: a status that each result may change, a bounded
 list of results, and a callback on every change.
 */
module HealthStatus {
  import opened Seqs

  datatype Status = Starting | Healthy | Unhealthy

  const KEPT_RESULTS: nat := 50

  datatype Checker = Checker(
    status: Status, consecutiveFailures: nat, results: seq<bool>, callbacks: seq<Status>)

  const NEW := Checker(Starting, 0, [], [])

  /** One turn of the loop after a check that passed or did not. */
  function Observe(c: Checker, passed: bool, retries: int): Checker {
    var failures := if passed then 0 else c.consecutiveFailures + 1;
    var status :=
      if passed then Healthy
      else if failures >= retries then Unhealthy
      else c.status;
    Checker(status, failures, Last(c.results + [passed], KEPT_RESULTS),
            if status != c.status then c.callbacks + [status] else c.callbacks)
  }

  function After(history: seq<bool>, retries: int): Checker {
    if history == [] then NEW
    else Observe(After(history[..|history| - 1], retries), history[|history| - 1], retries)
  }

  class HealthChecker {
    const retries: int
    var status: Status
    var consecutiveFailures: nat
    var results: seq<bool>
    var callbacks: seq<Status>

    constructor (retries: int)
      ensures this.retries == retries && State() == NEW
    {
      this.retries := retries;
      status, consecutiveFailures, results, callbacks := Starting, 0, [], [];
    }

    function State(): Checker
      reads this
    {
      Checker(status, consecutiveFailures, results, callbacks)
    }

    /** The loop, over the results of the checks made until it is told to stop. */
    method RunLoop(checks: seq<bool>)
      requires State() == NEW
      modifies this
      ensures State() == After(checks, retries)
      ensures status.Unhealthy? <==> AllFailed(checks, Threshold(retries))
      ensures status.Healthy? <==> !AllFailed(checks, Threshold(retries)) && true in checks
      ensures results == Last(checks, KEPT_RESULTS)
    {
      hide After, AllFailed;
      assert checks[..0] == [] && After([], retries) == NEW by { NothingObserved(retries); }
      for i := 0 to |checks|
        invariant State() == After(checks[..i], retries)
      {
        OneMoreCheck(checks, i, retries);
        var passed := checks[i];
        results := results + [passed];
        if |results| > 50 {
          results := results[|results| - 50..];
        }
        var oldStatus := status;
        if passed {
          consecutiveFailures := 0;
          status := Healthy;
        } else {
          consecutiveFailures := consecutiveFailures + 1;
          if consecutiveFailures >= retries {
            status := Unhealthy;
          }
        }
        if oldStatus != status {
          callbacks := callbacks + [status];
        }
      }
      assert checks[..|checks|] == checks;
      StatusByHistory(checks, retries);
      ResultsByHistory(checks, retries);
    }
  }

  lemma NothingObserved(retries: int)
    ensures After([], retries) == NEW
  {
  }

  lemma OneMoreCheck(checks: seq<bool>, i: nat, retries: int)
    requires i < |checks|
    ensures After(checks[..i + 1], retries) == Observe(After(checks[..i], retries), checks[i], retries)
  {
    assert checks[..i + 1][..i] == checks[..i];
  }

  // ---- The status as a property of the history -----------------------------

  /** A failure counts before it is compared, so that no setting can ask for less than one. */
  function Threshold(retries: int): nat { if retries < 1 then 1 else retries }

  predicate AllFailed(history: seq<bool>, k: nat) {
    |history| >= k && forall i :: |history| - k <= i < |history| ==> !history[i]
  }

  /** The failures since the last pass. */
  lemma {:induction false} FailuresByHistory(history: seq<bool>, retries: int)
    ensures var f := After(history, retries).consecutiveFailures;
      && AllFailed(history, f)
      && (f < |history| ==> history[|history| - 1 - f])
  {
    if history != [] {
      FailuresByHistory(history[..|history| - 1], retries);
    }
  }

  lemma LongerRun(history: seq<bool>, f: nat, k: nat)
    requires AllFailed(history, f) && (f < |history| ==> history[|history| - 1 - f])
    ensures AllFailed(history, k) <==> k <= f
  {
  }

  /** UNHEALTHY after enough failures in a row; else HEALTHY once a check has passed; else STARTING. */
  lemma {:induction false} StatusByHistory(history: seq<bool>, retries: int)
    ensures After(history, retries).status ==
      if AllFailed(history, Threshold(retries)) then Unhealthy
      else if true in history then Healthy
      else Starting
  {
    if history != [] {
      var n := |history| - 1;
      StatusByHistory(history[..n], retries);
      FailuresByHistory(history, retries);
      FailuresByHistory(history[..n], retries);
      LongerRun(history, After(history, retries).consecutiveFailures, Threshold(retries));
      LongerRun(history[..n], After(history[..n], retries).consecutiveFailures, Threshold(retries));
      hide AllFailed;
      assert history == history[..n] + [history[n]];
    }
  }

  lemma {:induction false} ResultsByHistory(history: seq<bool>, retries: int)
    ensures After(history, retries).results == Last(history, KEPT_RESULTS)
  {
    if history != [] {
      var n := |history| - 1;
      ResultsByHistory(history[..n], retries);
      assert history == history[..n] + [history[n]];
    }
  }

  // ---- The callbacks -------------------------------------------------------

  function StatusAt(history: seq<bool>, retries: int, i: nat): Status
    requires i <= |history|
  {
    After(history[..i], retries).status
  }

  /** The points of the history at which the status changed. */
  function Changes(history: seq<bool>, retries: int): seq<nat> {
    if history == [] then []
    else
      var n := |history| - 1;
      Changes(history[..n], retries)
      + if After(history, retries).status != After(history[..n], retries).status then [n + 1] else []
  }

  /** One callback for each change, with the new status, in order; none besides. */
  lemma {:induction false} CallbacksAreTheChanges(history: seq<bool>, retries: int)
    ensures var at := Changes(history, retries);
      var calls := After(history, retries).callbacks;
      && |at| == |calls|
      && (forall k :: 0 <= k < |at| ==> 1 <= at[k] <= |history| && calls[k] == StatusAt(history, retries, at[k]))
      && (forall k, l :: 0 <= k < l < |at| ==> at[k] < at[l])
      && (forall i :: 1 <= i <= |history| ==>
            (i in at <==> StatusAt(history, retries, i) != StatusAt(history, retries, i - 1)))
  {
    if history != [] {
      var n := |history| - 1;
      CallbacksAreTheChanges(history[..n], retries);
      assert history[..n + 1] == history;
      forall i | 0 <= i <= n ensures StatusAt(history, retries, i) == StatusAt(history[..n], retries, i) {
        assert history[..n][..i] == history[..i];
      }
    }
  }

  /** Callbacks alternate between HEALTHY and UNHEALTHY, and the last one names the status. */
  lemma {:induction false} CallbacksAlternate(history: seq<bool>, retries: int)
    ensures var c := After(history, retries);
      && (forall k :: 0 <= k < |c.callbacks| ==> !c.callbacks[k].Starting?)
      && (forall k :: 0 < k < |c.callbacks| ==> c.callbacks[k] != c.callbacks[k - 1])
      && c.status == if c.callbacks == [] then Starting else c.callbacks[|c.callbacks| - 1]
  {
    if history != [] {
      CallbacksAlternate(history[..|history| - 1], retries);
    }
  }
}
