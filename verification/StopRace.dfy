/**
 The threads of one container after its start: the monitor and any number of callers of
 `stop` and of `destroy`, over a child process that can be waited for only once.

 A step reads or writes one shared thing.  `reaps` counts the successful waits for the
 child and `bodies` the entries into the guarded part of the finalisation; `killed` says
 that the child has been sent the signal it cannot ignore.
 */
module StopRace {
  import opened Wrappers

  datatype Status = Running | Stopped

  datatype Child = Alive | Zombie | Reaped

  /** Inside the finalisation; from `Check` on the thread holds the lock. */
  datatype Phase = Acquire | Check | SetStatus | ClearPid | Release
  {
    predicate Holding() { !Acquire? }
  }

  datatype MonitorAt = ReadPid | TestEvent | TryWait | Finalizing(phase: Phase) | Finished

  /** `destroy` begins at `LookStatus`, calls `stop` at `TestStatus` and goes on at `TestMonitor`. */
  datatype CallerAt =
    | LookStatus
    | LookPid
    | TestStatus
    | TestPid
    | SetEvent
    | CopyPid
    | Terminate
    | Waiting(left: nat)
    | Kill
    | WaitForKilled
    | Ending(phase: Phase)
    | Joining
    | Returned
    | Refused
    | ForceKill
    | TestMonitor
    | SetLate
    | JoinLate
    | Destroyed
  {
    predicate Before() { LookStatus? || LookPid? || TestStatus? || TestPid? || SetEvent? }

    /** Past the finalisation, its own or that of another. */
    predicate After() {
      Joining? || Returned? || Refused? || ForceKill? || TestMonitor? || SetLate? || JoinLate? || Destroyed?
    }

    /** Has told the monitor to stay away and will finalise. */
    predicate Committed() { !Before() && !After() }

    predicate Over() { Returned? || Refused? || Destroyed? }
  }

  datatype Caller = Caller(at: CallerAt, attempts: nat, destroys: bool)

  /** The timeout that `destroy` gives to `stop`, in tenths of a second. */
  const DESTROY_ATTEMPTS := 50

  datatype Thread = Monitor | Stopper(id: nat)

  datatype State = State(
    status: Status, hasPid: bool, finalized: bool, stopEvent: bool, lock: Option<Thread>,
    child: Child, killed: bool, reaps: nat, bodies: nat,
    monitor: MonitorAt, callers: map<nat, Caller>)

  /** `start` has returned: a live child, a new monitor, nobody stopping yet. */
  const STARTED := State(Running, true, false, false, None, Alive, false, 0, 0, ReadPid, map[])

  datatype Event =
    | ChildExits
    | Call(id: nat, attempts: nat)
    | Destroy(id: nat)
    | MonitorSteps
    | CallerSteps(id: nat)

  // ---- Steps ---------------------------------------------------------------

  /** A successful wait takes the exit status away for ever. */
  function Wait(s: State): State { s.(child := Reaped, reaps := s.reaps + 1) }

  predicate CanFinalize(s: State, phase: Phase) { phase.Acquire? ==> s.lock.None? }

  /** One step of the finalisation; the phase after it, or nothing when the lock is released. */
  function Finalize(s: State, self: Thread, phase: Phase): (State, Option<Phase>) {
    match phase
    case Acquire => (s.(lock := Some(self)), Some(Check))
    case Check =>
      if s.finalized then (s, Some(Release))
      else (s.(finalized := true, bodies := s.bodies + 1), Some(SetStatus))
    case SetStatus => (s.(status := Stopped), Some(ClearPid))
    case ClearPid => (s.(hasPid := false), Some(Release))
    case Release => (s.(lock := None), None)
  }

  predicate Enabled(s: State, e: Event) {
    match e
    case ChildExits => s.child.Alive?
    case Call(id, _) => id !in s.callers
    case Destroy(id) => id !in s.callers
    case MonitorSteps => !s.monitor.Finished? && (s.monitor.Finalizing? ==> CanFinalize(s, s.monitor.phase))
    case CallerSteps(id) =>
      && id in s.callers && !s.callers[id].at.Over()
      && (s.callers[id].at.Ending? ==> CanFinalize(s, s.callers[id].at.phase))
      && (s.callers[id].at.WaitForKilled? ==> !s.child.Alive?)
  }

  function MonitorStep(s: State): State {
    match s.monitor
    case ReadPid => s.(monitor := if s.hasPid then TestEvent else Finished)
    case TestEvent => s.(monitor := if s.stopEvent then Finished else TryWait)
    case TryWait =>
      if s.child.Alive? then s.(monitor := TestEvent)
      else if s.child.Zombie? then Wait(s).(monitor := Finalizing(Acquire))
      else s.(monitor := Finished)
    case Finalizing(phase) =>
      var (t, next) := Finalize(s, Monitor, phase);
      t.(monitor := if next.Some? then Finalizing(next.value) else Finished)
    case Finished => s
  }

  /** What a caller's step does to what is shared, and where the caller is afterwards. */
  function CallerMove(s: State, id: nat): (r: (State, CallerAt))
    requires id in s.callers
    ensures r.0.callers == s.callers && r.0.monitor == s.monitor
  {
    var refusal := if s.callers[id].destroys then ForceKill else Refused;
    match s.callers[id].at
    case LookStatus => (s, if s.status.Running? then LookPid else TestMonitor)
    case LookPid => (s, if s.hasPid then TestStatus else TestMonitor)
    case TestStatus => (s, if s.status.Running? then TestPid else refusal)
    case TestPid => (s, if s.hasPid then SetEvent else refusal)
    case SetEvent => (s.(stopEvent := true), CopyPid)
    case CopyPid => (s, if s.hasPid then Terminate else Ending(Acquire))
    case Terminate => (s, if s.child.Reaped? then Ending(Acquire) else Waiting(s.callers[id].attempts))
    case Waiting(left) =>
      if left == 0 then (s, Kill)
      else if s.child.Alive? then (s, Waiting(left - 1))
      else (if s.child.Zombie? then Wait(s) else s, Ending(Acquire))
    case Kill => if s.child.Reaped? then (s, Ending(Acquire)) else (s.(killed := true), WaitForKilled)
    case WaitForKilled => (if s.child.Zombie? then Wait(s) else s, Ending(Acquire))
    case Ending(phase) =>
      var (t, next) := Finalize(s, Stopper(id), phase);
      (t, if next.Some? then Ending(next.value) else Joining)
    case Joining => (s, if s.callers[id].destroys then TestMonitor else Returned)
    case ForceKill => (if s.hasPid && !s.child.Reaped? then s.(killed := true) else s, TestMonitor)
    case TestMonitor => (s, if s.monitor.Finished? then Destroyed else SetLate)
    case SetLate => (s.(stopEvent := true), JoinLate)
    case JoinLate => (s, Destroyed)
    case Returned => (s, Returned)
    case Refused => (s, Refused)
    case Destroyed => (s, Destroyed)
  }

  function CallerStep(s: State, id: nat): State
    requires id in s.callers
  {
    var (t, at) := CallerMove(s, id);
    t.(callers := s.callers[id := s.callers[id].(at := at)])
  }

  function Apply(s: State, e: Event): State
    requires Enabled(s, e)
  {
    match e
    case ChildExits => s.(child := Zombie)
    case Call(id, attempts) => s.(callers := s.callers[id := Caller(TestStatus, attempts, false)])
    case Destroy(id) => s.(callers := s.callers[id := Caller(LookStatus, DESTROY_ATTEMPTS, true)])
    case MonitorSteps => MonitorStep(s)
    case CallerSteps(id) => CallerStep(s, id)
  }

  ghost predicate Legal(s: State, es: seq<Event>)
    decreases |es|
  {
    es == [] || (Enabled(s, es[0]) && Legal(Apply(s, es[0]), es[1..]))
  }

  function Play(s: State, es: seq<Event>): State
    requires Legal(s, es)
    decreases |es|
  {
    if es == [] then s else Play(Apply(s, es[0]), es[1..])
  }

  // ---- What every interleaving keeps ---------------------------------------

  function PhaseOf(s: State, t: Thread): Option<Phase> {
    match t
    case Monitor => if s.monitor.Finalizing? then Some(s.monitor.phase) else None
    case Stopper(id) =>
      if id in s.callers && s.callers[id].at.Ending? then Some(s.callers[id].at.phase) else None
  }

  /** On its way to run the guarded part of the finalisation. */
  predicate AboutTo(s: State, t: Thread) {
    PhaseOf(s, t) == Some(Acquire) || PhaseOf(s, t) == Some(Check)
  }

  predicate Counted(s: State) {
    && s.reaps == (if s.child.Reaped? then 1 else 0)
    && s.bodies == (if s.finalized then 1 else 0)
  }

  /** STOPPED and no pid come with the finalisation, and the finalisation after the reap. */
  predicate Staged(s: State) {
    && (s.finalized ==> s.child.Reaped?)
    && (s.status.Stopped? ==> s.finalized)
    && (!s.hasPid ==> s.status.Stopped?)
    && (s.finalized && s.lock.None? ==> s.status.Stopped? && !s.hasPid)
  }

  ghost predicate Locked(s: State) {
    && (forall t :: PhaseOf(s, t).Some? ==> s.child.Reaped?)
    && (forall t :: PhaseOf(s, t).Some? && PhaseOf(s, t).value.Holding() <==> s.lock == Some(t))
  }

  predicate HolderAt(s: State) {
    s.lock.Some? && PhaseOf(s, s.lock.value).Some? ==>
      match PhaseOf(s, s.lock.value).value
      case Acquire => true
      case Check => s.finalized ==> s.status.Stopped? && !s.hasPid
      case SetStatus => s.finalized
      case ClearPid => s.finalized && s.status.Stopped?
      case Release => s.finalized && s.status.Stopped? && !s.hasPid
  }

  /** Somebody answers for a reaped child. */
  ghost predicate Owed(s: State) {
    s.child.Reaped? ==> s.finalized || exists t :: AboutTo(s, t)
  }

  ghost function Guarded(): State -> bool {
    (s: State) => Counted(s) && Staged(s) && Locked(s) && HolderAt(s) && Owed(s)
  }

  /** Somebody answers for a monitor sent away; who is past the finalisation has seen STOPPED. */
  ghost function Answered(): State -> bool {
    (s: State) =>
      && (s.stopEvent ==> s.finalized || exists id :: id in s.callers && s.callers[id].at.Committed())
      && (s.monitor.Finished? ==> s.stopEvent || s.child.Reaped?)
      && (forall id :: id in s.callers && s.callers[id].at.After() ==> s.status.Stopped?)
      && (forall id :: id in s.callers && s.callers[id].at.WaitForKilled? ==> s.killed)
      && (forall id :: id in s.callers && s.callers[id].at.Committed() ==> s.stopEvent)
  }

  ghost function Sound(): State -> bool { (s: State) => Guarded()(s) && Answered()(s) }

  ghost predicate OthersStay(s: State, v: State, t: Thread) {
    forall u :: u != t ==> PhaseOf(v, u) == PhaseOf(s, u)
  }

  predicate SameCore(s: State, v: State) {
    && v.status == s.status && v.hasPid == s.hasPid && v.finalized == s.finalized
    && v.lock == s.lock && v.child == s.child && v.reaps == s.reaps && v.bodies == s.bodies
  }

  /** A step inside the finalisation, whoever takes it. */
  lemma FinalizeKeepsGuarded(s: State, v: State, t: Thread, phase: Phase)
    requires Guarded()(s) && PhaseOf(s, t) == Some(phase) && CanFinalize(s, phase) && OthersStay(s, v, t)
    requires SameCore(Finalize(s, t, phase).0, v) && PhaseOf(v, t) == Finalize(s, t, phase).1
    ensures Guarded()(v)
    ensures phase.Release? ==> v.finalized
  {
    hide PhaseOf;
    assert phase.Holding() <==> s.lock == Some(t);
    assert Locked(v);
    assert Owed(v) by {
      if !v.finalized {
        var u :| AboutTo(s, u);
        assert AboutTo(v, u);
      }
    }
  }

  /** The child has been reaped, by this thread now or by another, and the thread will finalise. */
  lemma EnterKeepsGuarded(s: State, v: State, t: Thread)
    requires Guarded()(s) && PhaseOf(s, t).None? && PhaseOf(v, t) == Some(Acquire) && OthersStay(s, v, t)
    requires (s.child.Zombie? && SameCore(Wait(s), v)) || (s.child.Reaped? && SameCore(s, v))
    ensures Guarded()(v)
  {
    hide PhaseOf;
    assert AboutTo(v, t);
  }

  lemma OtherKeepsGuarded(s: State, v: State)
    requires Guarded()(s) && forall t :: PhaseOf(v, t) == PhaseOf(s, t)
    requires SameCore(s, v) || (s.child.Alive? && SameCore(s.(child := Zombie), v))
    ensures Guarded()(v)
  {
    hide PhaseOf;
    if t :| AboutTo(s, t) {
      assert AboutTo(v, t);
    }
  }

  lemma MonitorFinalizes(s: State)
    requires s.monitor.Finalizing?
    ensures var done := Finalize(s, Monitor, s.monitor.phase);
      PhaseOf(s, Monitor) == Some(s.monitor.phase)
      && SameCore(done.0, MonitorStep(s)) && PhaseOf(MonitorStep(s), Monitor) == done.1
  {
  }

  lemma MonitorKeepsGuarded(s: State)
    requires Guarded()(s) && Enabled(s, MonitorSteps)
    ensures Guarded()(MonitorStep(s))
  {
    var v := MonitorStep(s);
    if s.monitor.Finalizing? {
      MonitorFinalizes(s);
      FinalizeEffect(s, Monitor, s.monitor.phase);
    }
    hide Guarded, Finalize;
    assert v.callers == s.callers;
    assert OthersStay(s, v, Monitor);
    hide OthersStay;
    if s.monitor.Finalizing? {
      hide MonitorStep, SameCore, PhaseOf;
      FinalizeKeepsGuarded(s, v, Monitor, s.monitor.phase);
    } else if s.monitor.TryWait? && s.child.Zombie? {
      EnterKeepsGuarded(s, v, Monitor);
    } else {
      assert PhaseOf(v, Monitor) == PhaseOf(s, Monitor);
      OtherKeepsGuarded(s, v);
    }
  }

  lemma GuardedMeans(s: State)
    requires Guarded()(s)
    ensures !s.hasPid ==> s.status.Stopped?
    ensures s.status.Stopped? ==> s.finalized
    ensures s.finalized ==> s.child.Reaped?
    ensures forall t :: PhaseOf(s, t).Some? ==> s.child.Reaped?
  {
  }

  /** What a caller's step can do outside the finalisation. */
  lemma CallerEffect(s: State, id: nat)
    requires Enabled(s, CallerSteps(id))
    ensures var (t, now) := CallerMove(s, id);
      var at := s.callers[id].at;
      && t.stopEvent == (s.stopEvent || at.SetEvent? || at.SetLate?)
      && (s.finalized ==> t.finalized) && (s.child.Reaped? ==> t.child.Reaped?)
      && (s.status.Stopped? ==> t.status.Stopped?) && (s.killed ==> t.killed)
  {
    if s.callers[id].at.Ending? {
      FinalizeEffect(s, Stopper(id), s.callers[id].at.phase);
    }
    hide Finalize, PhaseRank;
  }

  /** Where a caller's step leads it. */
  lemma CallerGoesOn(s: State, id: nat)
    requires Enabled(s, CallerSteps(id))
    ensures var now := CallerMove(s, id).1;
      var at := s.callers[id].at;
      && (at.Committed() || at.SetEvent? ==> now.Committed() || at == Ending(Release))
      && (now.WaitForKilled? ==> CallerMove(s, id).0.killed)
      && (now.After() ==> at.After() || at == Ending(Release) || s.status.Stopped? || !s.hasPid)
  {
    if s.callers[id].at.Ending? {
      FinalizeEffect(s, Stopper(id), s.callers[id].at.phase);
    }
    hide Finalize, PhaseRank;
  }

  lemma CallerLeavesOthers(s: State, id: nat)
    requires Enabled(s, CallerSteps(id))
    ensures OthersStay(s, CallerStep(s, id), Stopper(id))
  {
    hide CallerMove, Enabled;
  }

  lemma CallerFinalizes(s: State, id: nat)
    requires Enabled(s, CallerSteps(id)) && s.callers[id].at.Ending?
    ensures var phase := s.callers[id].at.phase;
      var done := Finalize(s, Stopper(id), phase);
      PhaseOf(s, Stopper(id)) == Some(phase)
      && SameCore(done.0, CallerStep(s, id)) && PhaseOf(CallerStep(s, id), Stopper(id)) == done.1
  {
  }

  lemma CallerElsewhere(s: State, id: nat)
    requires Enabled(s, CallerSteps(id)) && !s.callers[id].at.Ending?
    requires !s.hasPid ==> s.child.Reaped?
    ensures PhaseOf(s, Stopper(id)).None?
    ensures var v := CallerStep(s, id);
      if v.callers[id].at.Ending?
      then
        && PhaseOf(v, Stopper(id)) == Some(Acquire)
        && ((s.child.Zombie? && SameCore(Wait(s), v)) || (s.child.Reaped? && SameCore(s, v)))
      else PhaseOf(v, Stopper(id)).None? && SameCore(s, v)
  {
  }

  lemma CallerKeepsGuarded(s: State, id: nat)
    requires Guarded()(s) && Enabled(s, CallerSteps(id))
    ensures Guarded()(CallerStep(s, id))
  {
    var v := CallerStep(s, id);
    var t := Stopper(id);
    GuardedMeans(s);
    CallerLeavesOthers(s, id);
    if s.callers[id].at.Ending? {
      CallerFinalizes(s, id);
      hide Guarded, OthersStay, PhaseOf, CallerStep, Finalize, SameCore;
      FinalizeKeepsGuarded(s, v, t, s.callers[id].at.phase);
    } else {
      CallerElsewhere(s, id);
      hide Guarded, PhaseOf, CallerStep, SameCore;
      if v.callers[id].at.Ending? {
        EnterKeepsGuarded(s, v, t);
      } else {
        OtherKeepsGuarded(s, v);
      }
    }
  }

  /** What a caller's step does to what the callers have seen. */
  lemma CallerKeepsAnswered(s: State, id: nat)
    requires Guarded()(s) && Answered()(s) && Enabled(s, CallerSteps(id))
    ensures Answered()(CallerStep(s, id))
  {
    var v := CallerStep(s, id);
    GuardedMeans(s);
    CallerEffect(s, id);
    CallerGoesOn(s, id);
    var at := s.callers[id].at;
    if at.Ending? {
      assert PhaseOf(s, Stopper(id)) == Some(at.phase);
      assert at.phase.Release? ==> s.status.Stopped?;
    }
    hide Guarded, CallerMove, Enabled, PhaseOf;
    assert at.Committed() || at.SetEvent? ==> s.finalized || (id in v.callers && v.callers[id].at.Committed());
    if s.stopEvent && !s.finalized {
      var other :| other in s.callers && s.callers[other].at.Committed();
      assert other in v.callers && v.callers[other].at.Committed();
    }
  }

  function PhaseRank(p: Phase): nat {
    match p
    case Acquire => 5
    case Check => 4
    case SetStatus => 3
    case ClearPid => 2
    case Release => 1
  }

  /** What the finalisation leaves alone, and that it goes forward. */
  lemma FinalizeEffect(s: State, t: Thread, phase: Phase)
    ensures var (v, next) := Finalize(s, t, phase);
      && (v.callers, v.monitor, v.stopEvent, v.killed, v.child)
         == (s.callers, s.monitor, s.stopEvent, s.killed, s.child)
      && (s.finalized ==> v.finalized) && (s.status.Stopped? ==> v.status.Stopped?)
      && (next.None? <==> phase.Release?)
      && 0 < PhaseRank(phase) <= 5 && (next.Some? ==> 0 < PhaseRank(next.value) < PhaseRank(phase))
  {
  }

  /** What the monitor's step does outside the finalisation. */
  lemma MonitorEffect(s: State)
    requires Enabled(s, MonitorSteps)
    ensures var v := MonitorStep(s);
      && (v.callers, v.stopEvent, v.killed) == (s.callers, s.stopEvent, s.killed)
      && (s.finalized ==> v.finalized) && (s.status.Stopped? ==> v.status.Stopped?)
      && (s.child.Reaped? ==> v.child.Reaped?)
      && (v.monitor.Finished? ==> s.stopEvent || v.child.Reaped? || !s.hasPid || s.monitor.Finalizing?)
  {
    if s.monitor.Finalizing? {
      FinalizeEffect(s, Monitor, s.monitor.phase);
    }
    hide Finalize, PhaseRank;
  }

  lemma MonitorKeepsAnswered(s: State)
    requires Guarded()(s) && Answered()(s) && Enabled(s, MonitorSteps)
    ensures Answered()(MonitorStep(s))
  {
    MonitorEffect(s);
    GuardedMeans(s);
    assert s.monitor.Finalizing? ==> PhaseOf(s, Monitor).Some?;
    hide Guarded, Enabled, MonitorStep, PhaseOf;
  }

  lemma {:induction false} StepKeepsSound(s: State, e: Event)
    requires Sound()(s) && Enabled(s, e)
    ensures Sound()(Apply(s, e))
  {
    var v := Apply(s, e);
    match e
    case MonitorSteps =>
      MonitorKeepsGuarded(s);
      MonitorKeepsAnswered(s);
    case CallerSteps(id) =>
      CallerKeepsGuarded(s, id);
      CallerKeepsAnswered(s, id);
    case ChildExits =>
      OtherKeepsGuarded(s, v);
    case _ => CallKeepsSound(s, e);
  }

  lemma {:induction false} CallKeepsSound(s: State, e: Event)
    requires Sound()(s) && Enabled(s, e) && (e.Call? || e.Destroy?)
    ensures Sound()(Apply(s, e))
  {
    var v := Apply(s, e);
    OtherKeepsGuarded(s, v);
    hide Guarded;
    if s.stopEvent && !s.finalized {
      var other :| other in s.callers && s.callers[other].at.Committed();
      assert other in v.callers && v.callers[other].at.Committed();
    }
  }

  /** Whatever every step keeps, every interleaving keeps. */
  lemma {:induction false} RunInduction(s: State, es: seq<Event>, inv: State -> bool)
    requires Legal(s, es) && inv(s)
    requires forall v: State, e: Event :: inv(v) && Enabled(v, e) ==> inv(Apply(v, e))
    ensures inv(Play(s, es))
    decreases |es|
  {
    hide Apply, Enabled;
    if es != [] {
      RunInduction(Apply(s, es[0]), es[1..], inv);
    }
  }

  lemma EveryRunIsSound(es: seq<Event>)
    requires Legal(STARTED, es)
    ensures Sound()(Play(STARTED, es))
  {
    StartIsSound();
    hide Sound, Apply, Enabled;
    forall v: State, e: Event | Sound()(v) && Enabled(v, e) ensures Sound()(Apply(v, e)) {
      StepKeepsSound(v, e);
    }
    RunInduction(STARTED, es, Sound());
  }

  predicate AllDone(s: State) {
    s.monitor.Finished? && forall id :: id in s.callers ==> s.callers[id].at.Over()
  }

  /** In every interleaving nothing is done twice, the reap comes first, and STOPPED is only seen after both. */
  lemma NothingTwice(es: seq<Event>)
    requires Legal(STARTED, es)
    ensures var s := Play(STARTED, es);
      && (s.reaps, s.bodies) in {(0, 0), (1, 0), (1, 1)}
      && (s.status.Stopped? || !s.hasPid ==> (s.child, s.reaps, s.bodies) == (Reaped, 1, 1))
  {
    EveryRunIsSound(es);
    assert Sound()(Play(STARTED, es)) && Guarded()(Play(STARTED, es)) && Answered()(Play(STARTED, es));
  }

  /** When all threads are done the child has been reaped and the container is STOPPED without a pid. */
  lemma AllDoneIsStopped(es: seq<Event>)
    requires Legal(STARTED, es) && AllDone(Play(STARTED, es))
    ensures var s := Play(STARTED, es);
      (s.status, s.hasPid, s.child, s.reaps, s.bodies, s.lock) == (Stopped, false, Reaped, 1, 1, None)
  {
    EveryRunIsSound(es);
    assert Sound()(Play(STARTED, es)) && Guarded()(Play(STARTED, es)) && Answered()(Play(STARTED, es));
    var s := Play(STARTED, es);
    hide Play, Legal;
    assert forall t :: PhaseOf(s, t).None?;
    assert forall t :: s.lock != Some(t);
  }

  /**
   In every interleaving a `stop` or `destroy` that gets past the finalisation, its own or
   another's, leaves a child reaped once and a container seen as STOPPED: `destroy` never
   takes the resources of a running container.
   */
  lemma EndedAfterStop(es: seq<Event>, id: nat)
    requires Legal(STARTED, es) && id in Play(STARTED, es).callers && Play(STARTED, es).callers[id].at.After()
    ensures var s := Play(STARTED, es); (s.status, s.child, s.reaps, s.bodies) == (Stopped, Reaped, 1, 1)
  {
    EveryRunIsSound(es);
    assert Sound()(Play(STARTED, es)) && Guarded()(Play(STARTED, es)) && Answered()(Play(STARTED, es));
  }

  lemma StartIsSound()
    ensures Sound()(STARTED)
  {
    assert forall t :: PhaseOf(STARTED, t).None?;
    assert Guarded()(STARTED) && Answered()(STARTED);
  }

  /**
   Threads never block each other for good: until all are done some thread can go on, unless all
   that is left is to wait for a child that has been killed.
   */
  lemma NoDeadlock(s: State)
    requires Sound()(s) && !AllDone(s)
    ensures (exists e: Event :: (e.MonitorSteps? || e.CallerSteps?) && Enabled(s, e)) || (s.killed && s.child.Alive?)
  {
    assert Guarded()(s) && Answered()(s);
    if s.lock.Some? {
      assert PhaseOf(s, s.lock.value).Some? && PhaseOf(s, s.lock.value).value.Holding();
      match s.lock.value
      case Monitor => assert Enabled(s, MonitorSteps);
      case Stopper(id) => assert Enabled(s, CallerSteps(id));
    } else if !s.monitor.Finished? {
      assert Enabled(s, MonitorSteps);
    } else {
      var id :| id in s.callers && !s.callers[id].at.Over();
      assert Enabled(s, CallerSteps(id)) || (s.callers[id].at.WaitForKilled? && s.child.Alive?);
    }
  }

  // ---- Once the child has ended ----------------------------------------------

  /** Upper bounds on the steps a thread has left when the child has ended. */
  function MonitorRank(at: MonitorAt): nat {
    match at
    case ReadPid => 8
    case TestEvent => 7
    case TryWait => 6
    case Finalizing(phase) => PhaseRank(phase)
    case Finished => 0
  }

  function CallerRank(at: CallerAt): nat {
    match at
    case LookStatus => 19
    case LookPid => 18
    case TestStatus => 17
    case TestPid => 16
    case SetEvent => 15
    case CopyPid => 14
    case Terminate => 13
    case Waiting(_) => 12
    case Kill => 11
    case WaitForKilled => 10
    case Ending(phase) => 4 + PhaseRank(phase)
    case Joining => 4
    case ForceKill => 4
    case TestMonitor => 3
    case SetLate => 2
    case JoinLate => 1
    case Returned => 0
    case Refused => 0
    case Destroyed => 0
  }

  function Left(s: State, t: Event): nat {
    match t
    case MonitorSteps => MonitorRank(s.monitor)
    case CallerSteps(id) => if id in s.callers then CallerRank(s.callers[id].at) else 0
    case _ => 0
  }

  lemma CallerDescends(s: State, id: nat)
    requires Enabled(s, CallerSteps(id)) && !s.child.Alive?
    ensures CallerRank(CallerMove(s, id).1) < CallerRank(s.callers[id].at) && !CallerMove(s, id).0.child.Alive?
  {
    if s.callers[id].at.Ending? {
      FinalizeEffect(s, Stopper(id), s.callers[id].at.phase);
    }
    hide Finalize, PhaseRank;
  }

  lemma MonitorDescends(s: State)
    requires Enabled(s, MonitorSteps) && !s.child.Alive?
    ensures MonitorRank(MonitorStep(s).monitor) < MonitorRank(s.monitor) && !MonitorStep(s).child.Alive?
    ensures MonitorStep(s).callers == s.callers
  {
    if s.monitor.Finalizing? {
      FinalizeEffect(s, Monitor, s.monitor.phase);
      hide PhaseRank;
    }
    hide Finalize;
  }

  /** Each step of a thread brings it nearer its end, and no other thread farther from its own. */
  lemma StepsEnd(s: State, e: Event, t: Event)
    requires Enabled(s, e) && !s.child.Alive? && (t.MonitorSteps? || (t.CallerSteps? && t.id in s.callers))
    ensures Left(Apply(s, e), t) + (if e == t then 1 else 0) <= Left(s, t)
    ensures !Apply(s, e).child.Alive? && (t.CallerSteps? ==> t.id in Apply(s, e).callers)
  {
    if e.MonitorSteps? {
      MonitorDescends(s);
    } else if e.CallerSteps? {
      CallerDescends(s, e.id);
    }
    hide MonitorStep, CallerMove, CallerRank, MonitorRank;
  }

  /**
   When the child has ended, the monitor and every caller end after a bounded number of steps of their
   own in every interleaving; and by `NoDeadlock` there is a step to take until all have ended.
   */
  lemma {:induction false} EveryThreadEnds(s: State, es: seq<Event>, t: Event)
    requires Legal(s, es) && !s.child.Alive? && (t.MonitorSteps? || (t.CallerSteps? && t.id in s.callers))
    ensures multiset(es)[t] <= Left(s, t)
    decreases |es|
  {
    hide Apply, Enabled, Left;
    if es != [] {
      StepsEnd(s, es[0], t);
      EveryThreadEnds(Apply(s, es[0]), es[1..], t);
      assert es == [es[0]] + es[1..];
    }
  }

  // ---- Calls that come too late ------------------------------------------------

  /** The container has stopped, and the caller has not got past the checks. */
  predicate TooLate(s: State, id: nat) {
    && s.status == Stopped && !s.hasPid && id in s.callers
    && !s.callers[id].at.SetEvent? && !s.callers[id].at.Committed() && !s.callers[id].at.Joining?
  }

  lemma StaysTooLate(s: State, e: Event, id: nat)
    requires TooLate(s, id) && Enabled(s, e)
    ensures TooLate(Apply(s, e), id)
  {
    if e.MonitorSteps? {
      MonitorEffect(s);
      NoPidComesBack(s, Monitor);
    } else if e.CallerSteps? {
      CallerEffect(s, e.id);
      NoPidComesBack(s, Stopper(e.id));
    }
  }

  lemma NoPidComesBack(s: State, t: Thread)
    ensures !s.hasPid ==> forall phase :: !Finalize(s, t, phase).0.hasPid
  {
  }

  /** A stop or destroy that finds the container stopped neither signals nor waits for the child, in any interleaving. */
  lemma {:induction false} LateCallsDoNothing(s: State, es: seq<Event>, id: nat)
    requires TooLate(s, id) && Legal(s, es)
    ensures TooLate(Play(s, es), id)
    decreases |es|
  {
    hide Apply, Enabled, TooLate;
    if es != [] {
      StaysTooLate(s, es[0], id);
      LateCallsDoNothing(Apply(s, es[0]), es[1..], id);
    }
  }

  // ---- A run to the end --------------------------------------------------------

  lemma LegalFront(s: State, e: Event, es: seq<Event>)
    requires Enabled(s, e) && Legal(Apply(s, e), es)
    ensures Legal(s, [e] + es) && Play(s, [e] + es) == Play(Apply(s, e), es)
  {
    assert ([e] + es)[1..] == es;
  }

  function Times(n: nat): seq<Event> { if n == 0 then [] else [MonitorSteps] + Times(n - 1) }

  /** A child that exits on its own is reaped and the container finalised by the monitor alone. */
  lemma {:induction false} MonitorFinishesAlone()
    ensures Legal(STARTED, [ChildExits] + Times(8)) && AllDone(Play(STARTED, [ChildExits] + Times(8)))
  {
    var s := STARTED.(child := Zombie, monitor := TryWait);
    var t := Wait(s).(monitor := Finalizing(Check), lock := Some(Monitor));
    var u := t.(finalized := true, bodies := 1, status := Stopped, hasPid := false, monitor := Finalizing(Release));
    FromTo(s.(monitor := ReadPid), s, t, u, u.(lock := None, monitor := Finished));
    LegalFront(STARTED, ChildExits, Times(8));
  }

  /** Eight steps of the monitor, two or three at a time. */
  lemma {:induction false} FromTo(r: State, s: State, t: State, u: State, v: State)
    requires MonitorEnabled(r) && MonitorEnabled(MonitorStep(r)) && MonitorStep(MonitorStep(r)) == s
    requires MonitorEnabled(s) && MonitorEnabled(MonitorStep(s)) && MonitorStep(MonitorStep(s)) == t
    requires MonitorEnabled(t) && MonitorEnabled(MonitorStep(t)) && MonitorEnabled(MonitorStep(MonitorStep(t)))
    requires MonitorStep(MonitorStep(MonitorStep(t))) == u && MonitorEnabled(u) && MonitorStep(u) == v
    ensures Legal(r, Times(8)) && Play(r, Times(8)) == v
  {
    hide MonitorStep, Enabled;
    assert Legal(v, Times(0)) && Play(v, Times(0)) == v;
    LegalFront(u, MonitorSteps, Times(0));
    var t1, t2 := MonitorStep(t), MonitorStep(MonitorStep(t));
    LegalFront(t2, MonitorSteps, Times(1));
    LegalFront(t1, MonitorSteps, Times(2));
    LegalFront(t, MonitorSteps, Times(3));
    LegalFront(MonitorStep(s), MonitorSteps, Times(4));
    LegalFront(s, MonitorSteps, Times(5));
    LegalFront(MonitorStep(r), MonitorSteps, Times(6));
    LegalFront(r, MonitorSteps, Times(7));
  }

  predicate MonitorEnabled(s: State) { Enabled(s, MonitorSteps) }

  // ---- Who waits for the child -------------------------------------------------

  /** Whoever waits for the child on behalf of a stop has told the monitor before, in every interleaving. */
  lemma StopTellsTheMonitor(es: seq<Event>, id: nat)
    requires Legal(STARTED, es) && id in Play(STARTED, es).callers && Play(STARTED, es).callers[id].at.Committed()
    ensures Play(STARTED, es).stopEvent
  {
    EveryRunIsSound(es);
    assert Answered()(Play(STARTED, es));
  }

  /** And the monitor, unless it is just about to look at the child, leaves it alone from then on. */
  lemma {:induction false} MonitorStaysAway(s: State, es: seq<Event>)
    requires Legal(s, es) && s.stopEvent && !s.monitor.TryWait?
    ensures Play(s, es).stopEvent && !Play(s, es).monitor.TryWait?
    decreases |es|
  {
    hide Apply, Enabled;
    if es != [] {
      AwayStep(s, es[0]);
      MonitorStaysAway(Apply(s, es[0]), es[1..]);
    }
  }

  lemma AwayStep(s: State, e: Event)
    requires Enabled(s, e) && s.stopEvent && !s.monitor.TryWait?
    ensures Apply(s, e).stopEvent && !Apply(s, e).monitor.TryWait?
  {
    if e.MonitorSteps? {
      MonitorEffect(s);
    } else if e.CallerSteps? {
      CallerEffect(s, e.id);
    }
    hide CallerMove, Finalize;
  }

  // ---- The grace period ------------------------------------------------------

  /** The step is a look of caller `id` at a child that is still alive. */
  predicate Polls(s: State, e: Event, id: nat) {
    && e == CallerSteps(id) && id in s.callers && s.callers[id].at.Waiting? && s.callers[id].at.left > 0
    && s.child.Alive?
  }

  function PollCount(s: State, es: seq<Event>, id: nat): nat
    requires Legal(s, es)
    decreases |es|
  {
    if es == [] then 0
    else (if Polls(s, es[0], id) then 1 else 0) + PollCount(Apply(s, es[0]), es[1..], id)
  }

  /** After `n` looks of caller `id`. */
  predicate Patient(s: State, id: nat, n: nat) {
    if id !in s.callers then n == 0
    else
      var c := s.callers[id];
      match c.at
      case Waiting(left) => n + left == c.attempts
      case Kill => n == c.attempts
      case WaitForKilled => n == c.attempts
      case _ => c.at.Before() || c.at.CopyPid? || c.at.Terminate? ==> n == 0
  }

  lemma StepIsPatient(s: State, e: Event, id: nat, n: nat)
    requires Enabled(s, e) && Patient(s, id, n)
    ensures Patient(Apply(s, e), id, n + if Polls(s, e, id) then 1 else 0)
  {
  }

  lemma {:induction false} RunsArePatient(s: State, es: seq<Event>, id: nat, n: nat)
    requires Legal(s, es) && Patient(s, id, n)
    ensures Patient(Play(s, es), id, n + PollCount(s, es, id))
    decreases |es|
  {
    hide Apply, Enabled, Patient, Polls;
    if es != [] {
      StepIsPatient(s, es[0], id, n);
      RunsArePatient(Apply(s, es[0]), es[1..], id, n + if Polls(s, es[0], id) then 1 else 0);
    }
  }

  /** A caller waits as long as its call said. */
  lemma {:induction false} AsCalled(s: State, es: seq<Event>, id: nat)
    requires Legal(s, es) && id in Play(s, es).callers
    ensures var c := Play(s, es).callers[id];
      if id in s.callers then (c.attempts, c.destroys) == (s.callers[id].attempts, s.callers[id].destroys)
      else if c.destroys then Destroy(id) in es && c.attempts == 50
      else Call(id, c.attempts) in es
    decreases |es|
  {
    hide Apply, Enabled;
    if es != [] {
      AsCalled(Apply(s, es[0]), es[1..], id);
      CallsStay(s, es[0], id);
      assert es == [es[0]] + es[1..];
    }
  }

  lemma CallsStay(s: State, e: Event, id: nat)
    requires Enabled(s, e)
    ensures var v := Apply(s, e);
      if id in s.callers
      then
        && id in v.callers
        && (v.callers[id].attempts, v.callers[id].destroys) == (s.callers[id].attempts, s.callers[id].destroys)
      else id in v.callers ==>
        if v.callers[id].destroys then e == Destroy(id) && v.callers[id].attempts == 50
        else e == Call(id, v.callers[id].attempts)
  {
    hide CallerMove;
    if e.MonitorSteps? {
      MonitorEffect(s);
    }
  }

  /**
   Who comes to kill the child has found it alive as many times as its call said; for `destroy`
   that is fifty times.
   */
  lemma KillsAfterTheGracePeriod(es: seq<Event>, id: nat)
    requires Legal(STARTED, es) && id in Play(STARTED, es).callers
    requires Play(STARTED, es).callers[id].at.Kill? || Play(STARTED, es).callers[id].at.WaitForKilled?
    ensures Call(id, PollCount(STARTED, es, id)) in es || (Destroy(id) in es && PollCount(STARTED, es, id) == 50)
  {
    hide Play, PollCount;
    RunsArePatient(STARTED, es, id, 0);
    AsCalled(STARTED, es, id);
  }
}
