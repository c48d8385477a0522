/**
 The limit on active containers while any number of threads create, start, stop and
 remove containers.  Creation checks the limit, works without the lock, and checks again.
 */
module AdmissionLimit {

  type Id = nat

  datatype Status = Created | Running | Stopped | Error
  {
    predicate Active() { Created? || Running? }
  }

  /** A thread inside the creation of a container. */
  datatype Creator =
    | Admitted                 // passed the first check
    | Holding(container: Id)   // has built its container outside the lock
    | Registered(container: Id)
    | TurnedAway               // refused by the first check
    | Discarded(container: Id) // refused by the second
    | Failed                   // building raised

  datatype State = State(
    maxContainers: int,
    registry: map<Id, Status>,
    creators: map<nat, Creator>,
    built: set<Id>,
    destroyed: set<Id>)

  datatype Event =
    | FirstCheck(thread: nat)
    | Build(thread: nat, container: Id)
    | BuildFails(thread: nat)
    | SecondCheck(thread: nat)
    | Start(container: Id, ok: bool)
    | Stop(container: Id)
    | Destroy(container: Id)
    | Unregister(container: Id)

  function ActiveIds(s: State): set<Id> { set c | c in s.registry && s.registry[c].Active() }

  function Active(s: State): nat { |ActiveIds(s)| }

  predicate Enabled(s: State, e: Event) {
    match e
    case FirstCheck(thread) => thread !in s.creators
    case Build(thread, c) => thread in s.creators && s.creators[thread].Admitted? && c !in s.built
    case BuildFails(thread) => thread in s.creators && s.creators[thread].Admitted?
    case SecondCheck(thread) => thread in s.creators && s.creators[thread].Holding?
    case Start(c, _) => c in s.registry && !s.registry[c].Running?   // from ERROR only without a message
    case Stop(c) => c in s.registry && s.registry[c].Running?
    case Destroy(c) => c in s.registry
    case Unregister(c) => c in s.registry && c in s.destroyed
  }

  function Apply(s: State, e: Event): State
    requires Enabled(s, e)
  {
    match e
    case FirstCheck(thread) =>
      s.(creators := s.creators[thread := if Active(s) >= s.maxContainers then TurnedAway else Admitted])
    case Build(thread, c) => s.(creators := s.creators[thread := Holding(c)], built := s.built + {c})
    case BuildFails(thread) => s.(creators := s.creators[thread := Failed])
    case SecondCheck(thread) =>
      var c := s.creators[thread].container;
      if Active(s) >= s.maxContainers
      then s.(creators := s.creators[thread := Discarded(c)], destroyed := s.destroyed + {c})
      else s.(creators := s.creators[thread := Registered(c)], registry := s.registry[c := Created])
    case Start(c, ok) => s.(registry := s.registry[c := if ok then Running else Error])
    case Stop(c) => s.(registry := s.registry[c := Stopped])
    case Destroy(c) =>
      s.(registry := if s.registry[c].Running? then s.registry[c := Stopped] else s.registry,
         destroyed := s.destroyed + {c})
    case Unregister(c) => s.(registry := s.registry - {c})
  }

  function Empty(maxContainers: int): State { State(maxContainers, map[], map[], {}, {}) }

  ghost predicate Legal(s: State, es: seq<Event>, permitted: (State, Event) -> bool)
    decreases |es|
  {
    es == [] || (Enabled(s, es[0]) && permitted(s, es[0]) && Legal(Apply(s, es[0]), es[1..], permitted))
  }

  function Play(s: State, es: seq<Event>, ghost permitted: (State, Event) -> bool): State
    requires Legal(s, es, permitted)
    decreases |es|
  {
    if es == [] then s else Play(Apply(s, es[0]), es[1..], permitted)
  }

  lemma {:induction false} RunInduction(
    s: State, es: seq<Event>, permitted: (State, Event) -> bool, inv: State -> bool)
    requires Legal(s, es, permitted) && inv(s)
    requires forall v: State, e: Event :: inv(v) && Enabled(v, e) && permitted(v, e) ==> inv(Apply(v, e))
    ensures inv(Play(s, es, permitted))
    decreases |es|
  {
    hide Apply, Enabled;
    if es != [] {
      assert Enabled(s, es[0]) && permitted(s, es[0]);
      RunInduction(Apply(s, es[0]), es[1..], permitted, inv);
    }
  }

  // ---- The limit -----------------------------------------------------------

  predicate WithinLimit(s: State) { Active(s) <= s.maxContainers || ActiveIds(s) == {} }

  /** A start that works from a state that is not active, with the limit already reached. */
  predicate Overfills(s: State, e: Event) {
    && e.Start? && e.ok && e.container in s.registry && !s.registry[e.container].Active()
    && Active(s) >= s.maxContainers
  }

  /** Exactly one kind of step breaks the limit: starting again what was stopped, when it is full. */
  lemma StepKeepsLimitIff(s: State, e: Event)
    requires WithinLimit(s) && Enabled(s, e)
    ensures WithinLimit(Apply(s, e)) <==> !Overfills(s, e)
  {
    var c := Touched(s, e);
    OneMore(s, Apply(s, e), c);
    hide ActiveIds;
    assert ActiveIds(s) == {} <==> Active(s) == 0;
    assert ActiveIds(Apply(s, e)) == {} <==> Active(Apply(s, e)) == 0;
  }

  /** The one container whose entry a step can change. */
  function Touched(s: State, e: Event): Id
    requires Enabled(s, e)
  {
    match e
    case FirstCheck(_) => 0
    case Build(_, c) => c
    case BuildFails(_) => 0
    case SecondCheck(thread) => s.creators[thread].container
    case Start(c, _) => c
    case Stop(c) => c
    case Destroy(c) => c
    case Unregister(c) => c
  }

  /** Only one container's entry has changed. */
  lemma OneMore(s: State, v: State, c: Id)
    requires forall d :: d != c ==> (d in v.registry <==> d in s.registry)
    requires forall d :: d != c && d in s.registry ==> v.registry[d] == s.registry[d]
    ensures ActiveIds(v) == if c in v.registry && v.registry[c].Active() then ActiveIds(s) + {c} else ActiveIds(s) - {c}
    ensures Active(v) == Active(s)
      + (if c in v.registry && v.registry[c].Active() then 1 else 0)
      - (if c in s.registry && s.registry[c].Active() then 1 else 0)
  {
    var others := set d | d in s.registry && s.registry[d].Active() && d != c;
    assert ActiveIds(s) == if c in s.registry && s.registry[c].Active() then others + {c} else others;
    assert ActiveIds(v) == if c in v.registry && v.registry[c].Active() then others + {c} else others;
  }

  function StartsOnlyCreated(): (State, Event) -> bool {
    (s: State, e: Event) => e.Start? && e.container in s.registry ==> s.registry[e.container].Created?
  }

  /** With starts only of newly created containers the limit holds in every interleaving. */
  lemma LimitHolds(maxContainers: nat, es: seq<Event>)
    requires Legal(Empty(maxContainers), es, StartsOnlyCreated())
    ensures Active(Play(Empty(maxContainers), es, StartsOnlyCreated())) <= maxContainers
  {
    var inv := (s: State) => WithinLimit(s) && s.maxContainers == maxContainers;
    forall s: State, e: Event | inv(s) && Enabled(s, e) && StartsOnlyCreated()(s, e) ensures inv(Apply(s, e)) {
      StepKeepsLimitIff(s, e);
    }
    RunInduction(Empty(maxContainers), es, StartsOnlyCreated(), inv);
  }

  function AnyStep(): (State, Event) -> bool { (s: State, e: Event) => true }

  /** Some interleaving leads from `s` to `v`. */
  ghost predicate Reaches(s: State, v: State) {
    exists es :: Legal(s, es, AnyStep()) && Play(s, es, AnyStep()) == v
  }

  lemma {:induction false} OneStepMore(s: State, es: seq<Event>, e: Event)
    requires Legal(s, es, AnyStep()) && Enabled(Play(s, es, AnyStep()), e)
    ensures Reaches(s, Apply(Play(s, es, AnyStep()), e))
    decreases |es|
  {
    hide Enabled, Apply;
    if es == [] {
      assert [e][1..] == [] && Legal(Apply(s, e), [], AnyStep());
      assert Play(Apply(s, e), [], AnyStep()) == Apply(s, e);
      assert Legal(s, [e], AnyStep()) && Play(s, [e], AnyStep()) == Apply(s, e);
    } else {
      var v := Apply(s, es[0]);
      OneStepMore(v, es[1..], e);
      var fs :| Legal(v, fs, AnyStep()) && Play(v, fs, AnyStep()) == Apply(Play(s, es, AnyStep()), e);
      assert ([es[0]] + fs)[1..] == fs;
      assert Legal(s, [es[0]] + fs, AnyStep()) && Play(s, [es[0]] + fs, AnyStep()) == Play(v, fs, AnyStep());
    }
  }

  lemma ReachesNext(s: State, v: State, e: Event)
    requires Reaches(s, v) && Enabled(v, e)
    ensures Reaches(s, Apply(v, e))
  {
    var es :| Legal(s, es, AnyStep()) && Play(s, es, AnyStep()) == v;
    hide Legal, Play, Apply, Enabled;
    OneStepMore(s, es, e);
  }

  /** How many containers are newly created or running. */
  function Occupied(s: State): nat {
    |set c | c in s.registry && (s.registry[c] == Created || s.registry[c] == Running)|
  }

  /** Both checks turn a creator away exactly when as many containers as allowed are active. */
  lemma TurnedAwayIffFull(s: State, t: nat)
    ensures Enabled(s, FirstCheck(t)) ==>
      Apply(s, FirstCheck(t)).creators[t] == if Occupied(s) < s.maxContainers then Admitted else TurnedAway
    ensures Enabled(s, SecondCheck(t)) ==>
      var c, v := s.creators[t].container, Apply(s, SecondCheck(t));
      if Occupied(s) < s.maxContainers
      then v.registry == s.registry[c := Created] && v.creators[t] == Registered(c)
      else v.registry == s.registry && v.creators[t] == Discarded(c) && c in v.destroyed
  {
    assert ActiveIds(s) == set c | c in s.registry && (s.registry[c] == Created || s.registry[c] == Running);
  }

  predicate Occupies(s: State, c: Id) { c in s.registry && (s.registry[c] == Created || s.registry[c] == Running) }

  /** By how much a step changes the number of newly created and running containers. */
  function Change(s: State, e: Event): int
    requires Enabled(s, e)
  {
    match e
    case SecondCheck(t) => if Occupied(s) < s.maxContainers && !Occupies(s, s.creators[t].container) then 1 else 0
    case Start(c, ok) => (if ok then 1 else 0) - (if Occupies(s, c) then 1 else 0)
    case Stop(_) => -1
    case Destroy(c) => if s.registry[c] == Running then -1 else 0
    case Unregister(c) => if Occupies(s, c) then -1 else 0
    case _ => 0
  }

  /** Every step is accounted for. */
  lemma EveryStepCounts(s: State, e: Event)
    requires Enabled(s, e)
    ensures Occupied(Apply(s, e)) == Occupied(s) + Change(s, e)
  {
    hide ActiveIds, Active, Occupied;
    var v := Apply(s, e);
    OccupiedIsActive(s);
    OccupiedIsActive(v);
    OneMore(s, v, Touched(s, e));
  }

  lemma OccupiedIsActive(s: State)
    ensures Occupied(s) == Active(s)
  {
    assert ActiveIds(s) == set c | c in s.registry && (s.registry[c] == Created || s.registry[c] == Running);
  }

  /** What becomes of one container's entry, and of a creator whose building fails. */
  lemma EntryAfter(s: State, c: Id, ok: bool, t: nat)
    ensures Enabled(s, Start(c, ok)) ==> Apply(s, Start(c, ok)).registry[c] == if ok then Running else Error
    ensures Enabled(s, Stop(c)) ==> Apply(s, Stop(c)).registry[c] == Stopped
    ensures Enabled(s, Destroy(c)) ==>
      var v := Apply(s, Destroy(c)); c in v.destroyed && c in v.registry && v.registry[c] != Running
    ensures Enabled(s, Unregister(c)) ==> c !in Apply(s, Unregister(c)).registry
    ensures Enabled(s, BuildFails(t)) ==>
      var v := Apply(s, BuildFails(t));
      v.built == s.built && v.registry == s.registry && forall d :: !Enabled(v, Build(t, d))
  {
  }

  /** One creation, undisturbed, below the limit. */
  lemma Creation(s: State, v: State, t: nat, c: Id)
    requires Reaches(s, v) && t !in v.creators && c !in v.built && Occupied(v) < v.maxContainers
    ensures Reaches(s, v.(registry := v.registry[c := Created], creators := v.creators[t := Registered(c)],
                          built := v.built + {c}))
  {
    hide Reaches;
    TurnedAwayIffFull(v, t);
    ReachesNext(s, v, FirstCheck(t));
    var v1 := v.(creators := v.creators[t := Admitted]);
    assert Apply(v, FirstCheck(t)) == v1;
    ReachesNext(s, v1, Build(t, c));
    var v2 := v.(creators := v.creators[t := Holding(c)], built := v.built + {c});
    assert Apply(v1, Build(t, c)) == v2;
    TurnedAwayIffFull(v2, t);
    ReachesNext(s, v2, SecondCheck(t));
    assert v2.creators[t := Registered(c)] == v.creators[t := Registered(c)];
  }

  /** Stopping one container, creating another and starting the first again exceeds a limit of one. */
  lemma RestartBreaksTheLimit()
    ensures exists s :: Reaches(Empty(1), s) && s.maxContainers == 1 && Active(s) == 2
  {
    assert Legal(Empty(1), [], AnyStep()) && Reaches(Empty(1), Empty(1));
    hide Reaches;
    Creation(Empty(1), Empty(1), 0, 7);
    var s1 := State(1, map[7 := Created], map[0 := Registered(7)], {7}, {});
    var s2 := s1.(registry := map[7 := Running]);
    var s3 := s1.(registry := map[7 := Stopped]);
    assert {} + {7} == {7};
    ReachesNext(Empty(1), s1, Start(7, true));
    assert s1.registry[7 := Running] == s2.registry && s2.registry[7 := Stopped] == s3.registry;
    ReachesNext(Empty(1), s2, Stop(7));
    assert ActiveIds(s3) == {};
    Creation(Empty(1), s3, 1, 8);
    var s4 := State(1, map[7 := Stopped, 8 := Created], s3.creators[1 := Registered(8)], {7, 8}, {});
    assert {7} + {8} == {7, 8} && s3.registry[8 := Created] == s4.registry;
    ReachesNext(Empty(1), s4, Start(7, true));
    var s5 := s4.(registry := map[7 := Running, 8 := Created]);
    assert s4.registry[7 := Running] == s5.registry;
    assert ActiveIds(s5) == {7, 8};
  }

  // ---- What becomes of every container built -------------------------------

  predicate InHand(s: State, c: Id) {
    exists t :: t in s.creators && s.creators[t] == Holding(c)
  }

  /** What a creator knows of its container. */
  predicate Honest(s: State, t: nat)
    requires t in s.creators
  {
    match s.creators[t]
    case Holding(c) => c in s.built && c !in s.registry && c !in s.destroyed
    case Discarded(c) => c in s.built && c in s.destroyed && c !in s.registry
    case Registered(c) => c in s.built && (c in s.registry || c in s.destroyed)
    case _ => true
  }

  predicate Clash(s: State, t: nat, u: nat) {
    t in s.creators && u in s.creators && t != u && s.creators[t].Holding? && s.creators[u] == s.creators[t]
  }

  /** Built containers are in one creator's hand, registered, or destroyed; none is left behind. */
  ghost function Accounted(): State -> bool {
    (s: State) =>
      && (forall c :: c in s.built <==> InHand(s, c) || c in s.registry || c in s.destroyed)
      && (forall t :: t in s.creators ==> Honest(s, t))
      && (forall t, u :: !Clash(s, t, u))
      && (forall t, u :: t in s.creators && u in s.creators && s.creators[t].Discarded? && s.creators[u].Holding? ==>
            s.creators[t].container != s.creators[u].container)
  }

  lemma CheckKeepsAccounted(s: State, thread: nat)
    requires Accounted()(s) && Enabled(s, SecondCheck(thread))
    ensures Accounted()(Apply(s, SecondCheck(thread)))
  {
    var v := Apply(s, SecondCheck(thread));
    var c := s.creators[thread].container;
    assert Honest(s, thread);
    hide ActiveIds;
    forall d ensures d in v.built <==> InHand(v, d) || d in v.registry || d in v.destroyed {
      if d != c && InHand(s, d) {
        var t :| t in s.creators && s.creators[t] == Holding(d);
        assert t in v.creators && v.creators[t] == Holding(d);
      }
    }
    forall t | t in v.creators ensures Honest(v, t) {
      assert t != thread ==> Honest(s, t) && !Clash(s, t, thread);
    }
    forall t, u ensures !Clash(v, t, u) {
      assert !Clash(s, t, u);
    }
  }

  lemma StepKeepsAccounted(s: State, e: Event)
    requires Accounted()(s) && Enabled(s, e)
    ensures Accounted()(Apply(s, e))
  {
    var v := Apply(s, e);
    if e.SecondCheck? {
      CheckKeepsAccounted(s, e.thread);
      return;
    }
    hide ActiveIds;
    forall d ensures d in v.built <==> InHand(v, d) || d in v.registry || d in v.destroyed {
      if InHand(s, d) {
        var t :| t in s.creators && s.creators[t] == Holding(d);
        assert t in v.creators && v.creators[t] == Holding(d);
      }
      if e.Build? && d == e.container {
        assert v.creators[e.thread] == Holding(d);
      }
    }
    forall t | t in v.creators ensures Honest(v, t) {
      assert t in s.creators ==> Honest(s, t);
    }
    forall t, u ensures !Clash(v, t, u) {
      assert !Clash(s, t, u);
      assert t in s.creators ==> Honest(s, t);
      assert u in s.creators ==> Honest(s, u);
    }
  }

  /** In every interleaving, whoever was refused at the second check has destroyed its container. */
  lemma NothingLeftBehind(maxContainers: int, es: seq<Event>)
    requires Legal(Empty(maxContainers), es, AnyStep())
    ensures var s := Play(Empty(maxContainers), es, AnyStep());
      && Accounted()(s)
      && forall t :: t in s.creators && s.creators[t].Discarded? ==>
           s.creators[t].container in s.destroyed && s.creators[t].container !in s.registry
  {
    forall s: State, e: Event | Accounted()(s) && Enabled(s, e) ensures Accounted()(Apply(s, e)) {
      StepKeepsAccounted(s, e);
    }
    hide Apply, Enabled;
    RunInduction(Empty(maxContainers), es, AnyStep(), Accounted());
    var s := Play(Empty(maxContainers), es, AnyStep());
    assert Accounted()(s);
    assert forall t :: t in s.creators ==> Honest(s, t);
  }
}
