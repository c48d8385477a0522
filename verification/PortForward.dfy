/**
 Port forwarding: the list of active mappings and the three chains of firewall rules
 that it drives one command at a time.
 */
module PortForward {
  import opened Wrappers
  import opened Seqs

  type Id = string

  datatype PortMapping = PortMapping(
    containerId: Id, hostPort: int, containerIp: string, containerPort: int, protocol: string)

  /** What the rules say; the two kinds of chain look at different fields of a mapping. */
  datatype Rule =
    | Dnat(protocol: string, hostPort: int, ip: string, port: int)
    | Accept(protocol: string, ip: string, port: int)

  function DnatOf(): PortMapping -> Rule {
    (m: PortMapping) => Dnat(m.protocol, m.hostPort, m.containerIp, m.containerPort)
  }

  function AcceptOf(): PortMapping -> Rule {
    (m: PortMapping) => Accept(m.protocol, m.containerIp, m.containerPort)
  }

  function BelongsTo(id: Id): PortMapping -> bool { (m: PortMapping) => m.containerId == id }

  function BelongsElsewhere(id: Id): PortMapping -> bool { (m: PortMapping) => m.containerId != id }

  datatype Chains = Chains(prerouting: seq<Rule>, output: seq<Rule>, forward: seq<Rule>)

  datatype Host = Host(active: seq<PortMapping>, chains: Chains)

  /** Without its first `x`; the same when there is none. */
  function Without<T(==)>(s: seq<T>, x: T): seq<T> {
    if s == [] then [] else if s[0] == x then s[1..] else [s[0]] + Without(s[1..], x)
  }

  // ---- Operations ----------------------------------------------------------

  /** A command takes effect, is refused, or finds no iptables program, which is not an error. */
  datatype CommandResult = Works | Fails | NoProgram

  function Adding(chain: seq<Rule>, rule: Rule, result: CommandResult): seq<Rule> {
    if result.Works? then chain + [rule] else chain
  }

  function Deleting(chain: seq<Rule>, rule: Rule, result: CommandResult): seq<Rule> {
    if result.Works? then Without(chain, rule) else chain
  }

  /** The three commands of an addition; the first that is refused ends it. */
  function Added(h: Host, m: PortMapping, first: CommandResult, second: CommandResult, third: CommandResult): Host {
    if first.Fails? then h
    else
      var c := h.chains;
      var pre := Adding(c.prerouting, DnatOf()(m), first);
      if second.Fails? then h.(chains := c.(prerouting := pre))
      else
        var out := Adding(c.output, DnatOf()(m), second);
        if third.Fails? then h.(chains := Chains(pre, out, c.forward))
        else Host(h.active + [m], Chains(pre, out, Adding(c.forward, AcceptOf()(m), third)))
  }

  /** The three commands of a removal, FORWARD first; no result is looked at. */
  function RemovedWith(h: Host, m: PortMapping, first: CommandResult, second: CommandResult, third: CommandResult): Host
  {
    Host(Without(h.active, m),
         Chains(Deleting(h.chains.prerouting, DnatOf()(m), third), Deleting(h.chains.output, DnatOf()(m), second),
                Deleting(h.chains.forward, AcceptOf()(m), first)))
  }

  /** Deleting what is not there changes nothing. */
  function Removed(h: Host, m: PortMapping): Host { RemovedWith(h, m, Works, Works, Works) }

  /** How the three commands of one removal go. */
  datatype Outcome = Outcome(first: CommandResult, second: CommandResult, third: CommandResult)
  {
    predicate AllWork() { first.Works? && second.Works? && third.Works? }
  }

  /** One removal after another; `how` gives the results, from number `i` on. */
  function RemovedAll(h: Host, ms: seq<PortMapping>, how: nat -> Outcome, i: nat): Host
    decreases |ms|
  {
    if ms == [] then h
    else RemovedAll(RemovedWith(h, ms[0], how(i).first, how(i).second, how(i).third), ms[1..], how, i + 1)
  }

  class PortForwarder {
    var active: seq<PortMapping>
    var prerouting: seq<Rule>
    var output: seq<Rule>
    var forward: seq<Rule>

    /** A new forwarder finds the chains as they are. */
    constructor (chains: Chains)
      ensures State() == Host([], chains)
    {
      active := [];
      prerouting, output, forward := chains.prerouting, chains.output, chains.forward;
    }

    function State(): Host
      reads this
    {
      Host(active, Chains(prerouting, output, forward))
    }

    /** A refused command raises; a missing program does not, and the mapping is recorded. */
    method AddRule(m: PortMapping, first: CommandResult, second: CommandResult, third: CommandResult)
      returns (ok: bool)
      modifies this
      ensures State() == Added(old(State()), m, first, second, third)
      ensures ok <==> !first.Fails? && !second.Fails? && !third.Fails?
    {
      if first.Fails? {
        return false;
      }
      prerouting := Adding(prerouting, Dnat(m.protocol, m.hostPort, m.containerIp, m.containerPort), first);
      if second.Fails? {
        return false;
      }
      output := Adding(output, Dnat(m.protocol, m.hostPort, m.containerIp, m.containerPort), second);
      if third.Fails? {
        return false;
      }
      forward := Adding(forward, Accept(m.protocol, m.containerIp, m.containerPort), third);
      active := active + [m];
      return true;
    }

    method RemoveRule(m: PortMapping, first: CommandResult, second: CommandResult, third: CommandResult)
      modifies this
      ensures State() == RemovedWith(old(State()), m, first, second, third)
    {
      forward := Deleting(forward, Accept(m.protocol, m.containerIp, m.containerPort), first);
      output := Deleting(output, Dnat(m.protocol, m.hostPort, m.containerIp, m.containerPort), second);
      prerouting := Deleting(prerouting, Dnat(m.protocol, m.hostPort, m.containerIp, m.containerPort), third);
      if m in active {
        active := Without(active, m);
      } else {
        WithoutAbsent(active, m);
      }
    }

    /** Agreement survives exactly when all commands work; the list is right however they go. */
    method RemoveAllForContainer(id: Id, how: nat -> Outcome) returns (count: nat)
      modifies this
      ensures State() == RemovedAll(old(State()), Filter(old(active), BelongsTo(id)), how, 0)
      ensures active == Filter(old(active), BelongsElsewhere(id))
      ensures count == |old(active)| - |active|
      ensures forall base :: Agrees(base, old(State())) ==> (Agrees(base, State()) <==> WorkFrom(how, 0, count))
    {
      hide Agrees, WorkFrom;
      ghost var before := State();
      var rulesToRemove := Filter(active, BelongsTo(id));
      assert rulesToRemove[0..] == rulesToRemove;
      for i := 0 to |rulesToRemove|
        invariant RemovedAll(State(), rulesToRemove[i..], how, i) == RemovedAll(before, rulesToRemove, how, 0)
      {
        assert rulesToRemove[i..][1..] == rulesToRemove[i + 1..];
        RemoveRule(rulesToRemove[i], how(i).first, how(i).second, how(i).third);
      }
      RemovesTheContainer(before, id, how, 0);
      count := |rulesToRemove|;
      forall base | Agrees(base, before) ensures Agrees(base, State()) <==> WorkFrom(how, 0, count) {
        RemoveAllKeepsIff(base, before, id, how, 0);
      }
    }
  }

  // ---- Agreement -----------------------------------------------------------

  datatype Base = Base(prerouting: multiset<Rule>, output: multiset<Rule>, forward: multiset<Rule>)

  function BaseOf(c: Chains): Base {
    Base(multiset(c.prerouting), multiset(c.output), multiset(c.forward))
  }

  /** What the chains held at first and one rule for each active mapping. */
  function Needed(base: Base, active: seq<PortMapping>): Base {
    Base(base.prerouting + multiset(Map(active, DnatOf())), base.output + multiset(Map(active, DnatOf())),
         base.forward + multiset(Map(active, AcceptOf())))
  }

  /** Every chain holds exactly what is needed, as often as it is needed. */
  predicate Agrees(base: Base, h: Host) { BaseOf(h.chains) == Needed(base, h.active) }

  lemma {:induction false} WithoutAbsent<T>(s: seq<T>, x: T)
    requires x !in s
    ensures Without(s, x) == s
  {
    if s != [] {
      WithoutAbsent(s[1..], x);
    }
  }

  /** As a multiset, exactly one occurrence goes. */
  lemma {:induction false} WithoutOne<T>(s: seq<T>, x: T)
    ensures multiset(Without(s, x)) == multiset(s) - multiset{x}
  {
    if s != [] {
      assert s == [s[0]] + s[1..];
      WithoutOne(s[1..], x);
    }
  }

  lemma {:induction false} MapWithout(s: seq<PortMapping>, m: PortMapping, f: PortMapping -> Rule)
    requires m in s
    ensures multiset(Map(Without(s, m), f)) + multiset{f(m)} == multiset(Map(s, f))
  {
    MapFront(s, f);
    if s[0] != m {
      MapWithout(s[1..], m, f);
      var rest := Without(s[1..], m);
      MapFront([s[0]] + rest, f);
      assert ([s[0]] + rest)[1..] == rest;
    }
  }

  lemma MapFront(s: seq<PortMapping>, f: PortMapping -> Rule)
    requires s != []
    ensures Map(s, f) == [f(s[0])] + Map(s[1..], f)
    ensures multiset(Map(s, f)) == multiset{f(s[0])} + multiset(Map(s[1..], f))
  {
    assert Map(s, f) == [f(s[0])] + Map(s[1..], f);
  }

  /** Refused before any command took effect. */
  predicate RefusedInTime(first: CommandResult, second: CommandResult, third: CommandResult) {
    || first.Fails?
    || (first.NoProgram? && second.Fails?)
    || (first.NoProgram? && second.NoProgram? && third.Fails?)
  }

  predicate AllWork(first: CommandResult, second: CommandResult, third: CommandResult) {
    first.Works? && second.Works? && third.Works?
  }

  /** Chains in agreement have as many rules as they had and there are mappings. */
  lemma AgreeingSizes(base: Base, h: Host)
    requires Agrees(base, h)
    ensures var c, n := h.chains, |h.active|;
      (|c.prerouting|, |c.output|, |c.forward|)
      == (|base.prerouting| + n, |base.output| + n, |base.forward| + n)
  {
    var needed := Needed(base, h.active);
    assert |multiset(h.chains.prerouting)| == |h.chains.prerouting| && |multiset(h.chains.output)| == |h.chains.output|
      && |multiset(h.chains.forward)| == |h.chains.forward|;
    assert |multiset(Map(h.active, DnatOf()))| == |h.active| && |multiset(Map(h.active, AcceptOf()))| == |h.active|;
    assert |needed.prerouting| == |base.prerouting| + |h.active|;
  }

  lemma ChainGrows(
    base: multiset<Rule>, chain: seq<Rule>, active: seq<PortMapping>, m: PortMapping, f: PortMapping -> Rule)
    requires multiset(chain) == base + multiset(Map(active, f))
    ensures multiset(chain + [f(m)]) == base + multiset(Map(active + [m], f))
  {
    assert Map(active + [m], f) == Map(active, f) + [f(m)];
  }

  lemma AllWorkAgrees(base: Base, h: Host, m: PortMapping)
    requires Agrees(base, h)
    ensures Agrees(base, Added(h, m, Works, Works, Works))
  {
    var c := h.chains;
    ChainGrows(base.prerouting, c.prerouting, h.active, m, DnatOf());
    ChainGrows(base.output, c.output, h.active, m, DnatOf());
    ChainGrows(base.forward, c.forward, h.active, m, AcceptOf());
    hide Map;
  }

  /** One rule and one mapping more, in step, is what an addition in full amounts to. */
  lemma SizesTell(h: Host, m: PortMapping, first: CommandResult, second: CommandResult, third: CommandResult)
    ensures var v := Added(h, m, first, second, third);
      var more := |v.active| - |h.active|;
      (|v.chains.prerouting|, |v.chains.output|, |v.chains.forward|)
      == (|h.chains.prerouting| + more, |h.chains.output| + more, |h.chains.forward| + more)
      ==> AllWork(first, second, third) || RefusedInTime(first, second, third)
  {
  }

  lemma RefusedChangesNothing(
    h: Host, m: PortMapping, first: CommandResult, second: CommandResult, third: CommandResult)
    requires RefusedInTime(first, second, third)
    ensures Added(h, m, first, second, third) == h
  {
  }

  /** Adding keeps the agreement exactly when all three commands took effect, or none did before a refusal. */
  lemma AddKeepsAgreementIff(
    base: Base, h: Host, m: PortMapping, first: CommandResult, second: CommandResult, third: CommandResult)
    requires Agrees(base, h)
    ensures Agrees(base, Added(h, m, first, second, third))
      <==> AllWork(first, second, third) || RefusedInTime(first, second, third)
  {
    hide Agrees, Added, RefusedInTime;
    var v := Added(h, m, first, second, third);
    AgreeingSizes(base, h);
    SizesTell(h, m, first, second, third);
    AllWorkAgrees(base, h, m);
    if Agrees(base, v) {
      AgreeingSizes(base, v);
    }
    if RefusedInTime(first, second, third) {
      RefusedChangesNothing(h, m, first, second, third);
    }
  }

  lemma ChainShrinks(
    base: multiset<Rule>, chain: seq<Rule>, active: seq<PortMapping>, m: PortMapping, f: PortMapping -> Rule)
    requires multiset(chain) == base + multiset(Map(active, f)) && m in active
    ensures multiset(Without(chain, f(m))) == base + multiset(Map(Without(active, m), f))
  {
    MapWithout(active, m, f);
    WithoutOne(chain, f(m));
    hide Map, Without;
  }

  /** Removing an active mapping always keeps the agreement. */
  lemma RemoveKeepsAgreement(base: Base, h: Host, m: PortMapping)
    requires Agrees(base, h) && m in h.active
    ensures Agrees(base, Removed(h, m))
  {
    var c := h.chains;
    ChainShrinks(base.prerouting, c.prerouting, h.active, m, DnatOf());
    ChainShrinks(base.output, c.output, h.active, m, DnatOf());
    ChainShrinks(base.forward, c.forward, h.active, m, AcceptOf());
    hide Map, Without;
  }

  /** Exactly when all three commands take effect: a rule that stays behind has no mapping any more. */
  lemma RemoveActiveKeepsIff(
    base: Base, h: Host, m: PortMapping, first: CommandResult, second: CommandResult, third: CommandResult)
    requires Agrees(base, h) && m in h.active
    ensures Agrees(base, RemovedWith(h, m, first, second, third)) <==> AllWork(first, second, third)
  {
    var v := RemovedWith(h, m, first, second, third);
    AgreeingSizes(base, h);
    RemoveKeepsAgreement(base, h, m);
    AgreeingSizes(base, Removed(h, m));
    hide Agrees;
    if Agrees(base, v) {
      AgreeingSizes(base, v);
      ShorterByOne(h.active, m);
    }
  }

  /** Removing a mapping that is not active keeps it exactly when no working command finds such a rule. */
  lemma RemoveInactiveKeepsIff(
    base: Base, h: Host, m: PortMapping, first: CommandResult, second: CommandResult, third: CommandResult)
    requires Agrees(base, h) && m !in h.active
    ensures Agrees(base, RemovedWith(h, m, first, second, third)) <==>
      && (third.Works? ==> DnatOf()(m) !in h.chains.prerouting)
      && (second.Works? ==> DnatOf()(m) !in h.chains.output)
      && (first.Works? ==> AcceptOf()(m) !in h.chains.forward)
  {
    WithoutAbsent(h.active, m);
    DeletingDiffers(h.chains.prerouting, DnatOf()(m), third);
    DeletingDiffers(h.chains.output, DnatOf()(m), second);
    DeletingDiffers(h.chains.forward, AcceptOf()(m), first);
    hide Deleting, Map;
  }

  lemma DeletingDiffers(chain: seq<Rule>, rule: Rule, result: CommandResult)
    ensures multiset(Deleting(chain, rule, result)) == multiset(chain) <==> (result.Works? ==> rule !in chain)
  {
    WithoutOne(chain, rule);
    OneLessDiffers(chain, rule);
  }

  lemma OneLessDiffers<T>(s: seq<T>, x: T)
    ensures multiset(s) - multiset{x} == multiset(s) <==> x !in s
  {
    if x in s {
      assert multiset(s)[x] > 0;
      assert (multiset(s) - multiset{x})[x] == multiset(s)[x] - 1;
    }
  }

  // ---- A whole container ---------------------------------------------------

  lemma {:induction false} FilterFront<T>(s: seq<T>, p: T -> bool)
    requires s != []
    ensures Filter(s, p) == (if p(s[0]) then [s[0]] else []) + Filter(s[1..], p)
  {
    assert s == [s[0]] + s[1..];
    assert Filter([s[0]], p) == (if p(s[0]) then [s[0]] else []) by { FilterAppend([], s[0], p); }
    hide Filter;
    FilterConcat([s[0]], s[1..], p);
  }

  /** Taking out one row takes it out of every selection it belongs to. */
  lemma {:induction false} FilterWithout<T>(s: seq<T>, x: T, p: T -> bool)
    ensures Filter(Without(s, x), p) == if p(x) then Without(Filter(s, p), x) else Filter(s, p)
  {
    hide Filter;
    if s == [] {
      assert Filter(s, p) == [] by { EmptyFilter(p); }
    } else {
      FilterFront(s, p);
      if s[0] != x {
        FilterWithout(s[1..], x, p);
        var rest := Without(s[1..], x);
        FilterFront([s[0]] + rest, p);
        assert ([s[0]] + rest)[1..] == rest;
        WithoutFront(s[0], Filter(s[1..], p), x);
      }
    }
  }

  lemma EmptyFilter<T>(p: T -> bool)
    ensures Filter([], p) == []
  {
  }

  lemma WithoutFront<T>(y: T, s: seq<T>, x: T)
    requires x != y
    ensures Without([y] + s, x) == [y] + Without(s, x)
    ensures [] + s == s
  {
    assert ([y] + s)[1..] == s;
  }

  /** Taking out one mapping of the container leaves its others, and all of the rest. */
  lemma WithoutFirst(s: seq<PortMapping>, id: Id)
    requires Filter(s, BelongsTo(id)) != []
    ensures var m := Filter(s, BelongsTo(id))[0];
      && m in s && m.containerId == id
      && Filter(Without(s, m), BelongsTo(id)) == Filter(s, BelongsTo(id))[1..]
      && Filter(Without(s, m), BelongsElsewhere(id)) == Filter(s, BelongsElsewhere(id))
  {
    var m := Filter(s, BelongsTo(id))[0];
    assert BelongsTo(id)(m);
    FilterWithout(s, m, BelongsTo(id));
    FilterWithout(s, m, BelongsElsewhere(id));
  }

  lemma {:induction false} NobodyLeft(s: seq<PortMapping>, id: Id)
    requires Filter(s, BelongsTo(id)) == []
    ensures Filter(s, BelongsElsewhere(id)) == s
  {
    if s != [] {
      FilterFront(s, BelongsTo(id));
      FilterFront(s, BelongsElsewhere(id));
      NobodyLeft(s[1..], id);
    }
  }

  /** After the loop the active mappings are those of other containers, in their old order. */
  lemma {:induction false} RemovesTheContainer(h: Host, id: Id, how: nat -> Outcome, i: nat)
    ensures var mine := Filter(h.active, BelongsTo(id));
      && RemovedAll(h, mine, how, i).active == Filter(h.active, BelongsElsewhere(id))
      && |h.active| == |mine| + |Filter(h.active, BelongsElsewhere(id))|
    decreases |Filter(h.active, BelongsTo(id))|
  {
    var mine := Filter(h.active, BelongsTo(id));
    if mine == [] {
      NobodyLeft(h.active, id);
    } else {
      WithoutFirst(h.active, id);
      ShorterByOne(h.active, mine[0]);
      var r := how(i);
      RemovesTheContainer(RemovedWith(h, mine[0], r.first, r.second, r.third), id, how, i + 1);
    }
  }

  lemma {:induction false} ShorterByOne<T>(s: seq<T>, x: T)
    ensures |Without(s, x)| == if x in s then |s| - 1 else |s|
  {
    if s != [] && s[0] != x {
      ShorterByOne(s[1..], x);
    }
  }

  /** The removals numbered `i` to `i + n - 1` go without a failure. */
  predicate WorkFrom(how: nat -> Outcome, i: nat, n: nat) { forall k :: i <= k < i + n ==> how(k).AllWork() }

  lemma WorkFromNext(how: nat -> Outcome, i: nat, n: nat)
    requires n > 0
    ensures WorkFrom(how, i, n) <==> how(i).AllWork() && WorkFrom(how, i + 1, n - 1)
  {
    assert WorkFrom(how, i + 1, n - 1) && how(i).AllWork() ==> forall k :: i <= k < i + n ==> how(k).AllWork();
  }

  lemma {:induction false} RemoveAllKeepsAgreement(base: Base, h: Host, id: Id, how: nat -> Outcome, i: nat)
    requires Agrees(base, h) && WorkFrom(how, i, |Filter(h.active, BelongsTo(id))|)
    ensures Agrees(base, RemovedAll(h, Filter(h.active, BelongsTo(id)), how, i))
    decreases |Filter(h.active, BelongsTo(id))|
  {
    hide Agrees;
    var mine := Filter(h.active, BelongsTo(id));
    if mine != [] {
      WithoutFirst(h.active, id);
      RemoveKeepsAgreement(base, h, mine[0]);
      WorkFromNext(how, i, |mine|);
      hide WorkFrom;
      RemoveAllKeepsAgreement(base, Removed(h, mine[0]), id, how, i + 1);
    }
  }

  /** How many rules there are, less three for each mapping. */
  function Surplus(h: Host): int {
    |h.chains.prerouting| + |h.chains.output| + |h.chains.forward| - 3 * |h.active|
  }

  lemma RemovalSurplus(h: Host, m: PortMapping, r: Outcome)
    requires m in h.active
    ensures Surplus(RemovedWith(h, m, r.first, r.second, r.third)) >= Surplus(h) + if r.AllWork() then 0 else 1
  {
    ShorterByOne(h.active, m);
    ShorterByOne(h.chains.prerouting, DnatOf()(m));
    ShorterByOne(h.chains.output, DnatOf()(m));
    ShorterByOne(h.chains.forward, AcceptOf()(m));
  }

  /** A rule left behind is never made good: no removal of the loop takes more than its own. */
  lemma {:induction false} RemoveAllSurplus(h: Host, id: Id, how: nat -> Outcome, i: nat)
    ensures var mine := Filter(h.active, BelongsTo(id));
      Surplus(RemovedAll(h, mine, how, i)) >= Surplus(h) + if WorkFrom(how, i, |mine|) then 0 else 1
    decreases |Filter(h.active, BelongsTo(id))|
  {
    var mine := Filter(h.active, BelongsTo(id));
    if mine != [] {
      WithoutFirst(h.active, id);
      WorkFromNext(how, i, |mine|);
      RemovalSurplus(h, mine[0], how(i));
      hide WorkFrom, Surplus;
      var r := how(i);
      RemoveAllSurplus(RemovedWith(h, mine[0], r.first, r.second, r.third), id, how, i + 1);
    }
  }

  /** Removing a container's mappings keeps the agreement exactly when all its commands work. */
  lemma RemoveAllKeepsIff(base: Base, h: Host, id: Id, how: nat -> Outcome, i: nat)
    requires Agrees(base, h)
    ensures var mine := Filter(h.active, BelongsTo(id));
      Agrees(base, RemovedAll(h, mine, how, i)) <==> WorkFrom(how, i, |mine|)
  {
    var mine := Filter(h.active, BelongsTo(id));
    var v := RemovedAll(h, mine, how, i);
    RemoveAllSurplus(h, id, how, i);
    AgreeingSizes(base, h);
    if WorkFrom(how, i, |mine|) {
      RemoveAllKeepsAgreement(base, h, id, how, i);
    } else if Agrees(base, v) {
      AgreeingSizes(base, v);
    }
  }

  /** Every chain has its first content and a rule for each active mapping, and maybe others. */
  function Covers(base: Base): Host -> bool {
    (h: Host) =>
      var needed := Needed(base, h.active);
      && needed.prerouting <= multiset(h.chains.prerouting)
      && needed.output <= multiset(h.chains.output)
      && needed.forward <= multiset(h.chains.forward)
  }

  lemma ChainKeepsCover(
    base: multiset<Rule>, chain: seq<Rule>, active: seq<PortMapping>, m: PortMapping, f: PortMapping -> Rule,
    result: CommandResult)
    requires base + multiset(Map(active, f)) <= multiset(chain) && m in active
    ensures base + multiset(Map(Without(active, m), f)) <= multiset(Deleting(chain, f(m), result))
  {
    MapWithout(active, m, f);
    WithoutOne(chain, f(m));
    hide Map, Without;
  }

  lemma RemoveKeepsCover(base: Base, h: Host, m: PortMapping, r: Outcome)
    requires Covers(base)(h) && m in h.active
    ensures Covers(base)(RemovedWith(h, m, r.first, r.second, r.third))
  {
    var c := h.chains;
    ChainKeepsCover(base.prerouting, c.prerouting, h.active, m, DnatOf(), r.third);
    ChainKeepsCover(base.output, c.output, h.active, m, DnatOf(), r.second);
    ChainKeepsCover(base.forward, c.forward, h.active, m, AcceptOf(), r.first);
    hide Map, Without, Deleting;
  }

  lemma {:induction false} CoverIsKept(base: Base, h: Host, id: Id, how: nat -> Outcome, i: nat)
    requires Covers(base)(h)
    ensures Covers(base)(RemovedAll(h, Filter(h.active, BelongsTo(id)), how, i))
    decreases |Filter(h.active, BelongsTo(id))|
  {
    var mine := Filter(h.active, BelongsTo(id));
    hide Covers;
    if mine != [] {
      WithoutFirst(h.active, id);
      RemoveKeepsCover(base, h, mine[0], how(i));
      var r := how(i);
      CoverIsKept(base, RemovedWith(h, mine[0], r.first, r.second, r.third), id, how, i + 1);
    }
  }

  /**
   However the commands go, the other containers keep every rule as often as it is needed, and the
   chains their first content; when all commands work they hold nothing else.
   */
  lemma OthersKeepTheirRules(base: Base, h: Host, id: Id, how: nat -> Outcome, i: nat)
    requires Agrees(base, h)
    ensures var mine, others := Filter(h.active, BelongsTo(id)), Filter(h.active, BelongsElsewhere(id));
      var v := RemovedAll(h, mine, how, i);
      && v.active == others && Covers(base)(v)
      && (WorkFrom(how, i, |mine|) ==> BaseOf(v.chains) == Needed(base, others))
  {
    CoverIsKept(base, h, id, how, i);
    RemoveAllKeepsIff(base, h, id, how, i);
    RemovesTheContainer(h, id, how, i);
    hide WorkFrom;
  }

  // ---- Where a packet goes ---------------------------------------------------

  /** The first rule of a chain for a protocol and a port rewrites the destination; without one it stays. */
  function Routed(chain: seq<Rule>, protocol: string, port: int): Option<(string, int)> {
    if chain == [] then None
    else match chain[0]
      case Dnat(p, hostPort, ip, containerPort) =>
        if p == protocol && hostPort == port then Some((ip, containerPort)) else Routed(chain[1..], protocol, port)
      case Accept(_, _, _) => Routed(chain[1..], protocol, port)
  }

  /** What a packet finds is a rule of the chain; it finds none only if there is none. */
  lemma {:induction false} RoutedByARule(chain: seq<Rule>, protocol: string, port: int)
    ensures match Routed(chain, protocol, port)
      case Some(to) => Dnat(protocol, port, to.0, to.1) in chain
      case None => forall ip, containerPort :: Dnat(protocol, port, ip, containerPort) !in chain
  {
    if chain != [] {
      RoutedByARule(chain[1..], protocol, port);
      assert chain == [chain[0]] + chain[1..];
    }
  }

  /** Nothing but the forwarder's own rules concerns this port. */
  ghost predicate Untaken(base: multiset<Rule>, protocol: string, port: int) {
    forall ip, containerPort :: Dnat(protocol, port, ip, containerPort) !in base
  }

  /** A packet to a host port goes to the container the active mappings name, and nowhere if none does. */
  lemma PacketGoesWhereMapped(
    rules: multiset<Rule>, chain: seq<Rule>, active: seq<PortMapping>, protocol: string, port: int)
    requires multiset(chain) == rules + multiset(Map(active, DnatOf())) && Untaken(rules, protocol, port)
    ensures match Routed(chain, protocol, port)
      case Some(to) =>
        exists m :: m in active && (m.protocol, m.hostPort, m.containerIp, m.containerPort) == (protocol, port, to.0, to.1)
      case None => forall m :: m in active ==> (m.protocol, m.hostPort) != (protocol, port)
  {
    RoutedByARule(chain, protocol, port);
    match Routed(chain, protocol, port)
    case Some(to) =>
      var rule := Dnat(protocol, port, to.0, to.1);
      assert rule in multiset(chain) && rule !in rules;
      assert rule in Map(active, DnatOf());
      var i :| 0 <= i < |active| && Map(active, DnatOf())[i] == rule;
      assert active[i] in active;
    case None =>
      forall m | m in active ensures (m.protocol, m.hostPort) != (protocol, port) {
        var i :| 0 <= i < |active| && active[i] == m;
        assert Map(active, DnatOf())[i] == DnatOf()(m) && DnatOf()(m) in multiset(chain);
      }
  }

  /**
   In every run: packets from outside and from the host itself to a port that no other container
   was given reach the container it is mapped to, and may be forwarded to it.
   */
  lemma PortReachesContainer(chains: Chains, ops: seq<Op>, m: PortMapping)
    requires var h := PerformAll(Host([], chains), ops);
      m in h.active && forall x :: x in h.active && (x.protocol, x.hostPort) == (m.protocol, m.hostPort) ==>
        (x.containerIp, x.containerPort) == (m.containerIp, m.containerPort)
    requires Untaken(BaseOf(chains).prerouting, m.protocol, m.hostPort)
    requires Untaken(BaseOf(chains).output, m.protocol, m.hostPort)
    ensures var v := PerformAll(Host([], chains), ops).chains;
      && Routed(v.prerouting, m.protocol, m.hostPort) == Some((m.containerIp, m.containerPort))
      && Routed(v.output, m.protocol, m.hostPort) == Some((m.containerIp, m.containerPort))
      && Accept(m.protocol, m.containerIp, m.containerPort) in v.forward
  {
    EveryRunAgrees(chains, ops);
    var h := PerformAll(Host([], chains), ops);
    PacketGoesWhereMapped(BaseOf(chains).prerouting, h.chains.prerouting, h.active, m.protocol, m.hostPort);
    PacketGoesWhereMapped(BaseOf(chains).output, h.chains.output, h.active, m.protocol, m.hostPort);
    var i :| 0 <= i < |h.active| && h.active[i] == m;
    assert Map(h.active, AcceptOf())[i] == AcceptOf()(m);
    assert AcceptOf()(m) in multiset(h.chains.forward);
    hide PerformAll;
  }

  // ---- What failing commands leave behind ------------------------------------

  /** A first command that works and a second that is refused: a rule stays, for a mapping that nobody records. */
  lemma RefusedAdditionLeavesARule(chains: Chains, m: PortMapping, third: CommandResult)
    ensures var v := Added(Host([], chains), m, Works, Fails, third);
      && v == Host([], chains.(prerouting := chains.prerouting + [DnatOf()(m)]))
      && !Agrees(BaseOf(chains), v)
  {
    var start := Host([], chains);
    assert Agrees(BaseOf(chains), start);
    AddKeepsAgreementIff(BaseOf(chains), start, m, Works, Fails, third);
  }

  /** Without an iptables program a mapping is recorded that has no rules. */
  lemma AdditionWithoutRules(chains: Chains, m: PortMapping)
    ensures var v := Added(Host([], chains), m, NoProgram, NoProgram, NoProgram);
      v == Host([m], chains) && !Agrees(BaseOf(chains), v)
  {
    var start := Host([], chains);
    assert Agrees(BaseOf(chains), start);
    AddKeepsAgreementIff(BaseOf(chains), start, m, NoProgram, NoProgram, NoProgram);
  }

  /** A removal whose last command is refused forgets the mapping and leaves its rule in PREROUTING. */
  lemma RefusedRemovalLeavesARule(chains: Chains, m: PortMapping)
    ensures var v := RemovedWith(Added(Host([], chains), m, Works, Works, Works), m, Works, Works, Fails);
      && v.active == [] && v.chains.prerouting == chains.prerouting + [DnatOf()(m)]
      && !Agrees(BaseOf(chains), v)
  {
    var added := Added(Host([], chains), m, Works, Works, Works);
    AllWorkAgrees(BaseOf(chains), Host([], chains), m);
    RemoveActiveKeepsIff(BaseOf(chains), added, m, Works, Works, Fails);
    assert added.active == [m] && [m][1..] == [];
  }

  /** Removing a mapping that was never added takes the rules of another container's. */
  lemma RemovalTakesAnothersRules(m: PortMapping, other: Id)
    requires other != m.containerId
    ensures Removed(Added(Host([], Chains([], [], [])), m, Works, Works, Works), m.(containerId := other))
         == Host([m], Chains([], [], []))
  {
    var added := Added(Host([], Chains([], [], [])), m, Works, Works, Works);
    assert added == Host([m], Chains([DnatOf()(m)], [DnatOf()(m)], [AcceptOf()(m)]));
    WithoutAbsent([m], m.(containerId := other));
    assert [DnatOf()(m)][1..] == [] && [AcceptOf()(m)][1..] == [];
  }

  // ---- Whole runs ----------------------------------------------------------

  datatype Op = Add(mapping: PortMapping) | RemoveActive(index: nat) | RemoveAll(id: Id)

  function Working(): nat -> Outcome { (k: nat) => Outcome(Works, Works, Works) }

  function Perform(h: Host, op: Op): Host {
    match op
    case Add(m) => Added(h, m, Works, Works, Works)
    case RemoveActive(i) => if i < |h.active| then Removed(h, h.active[i]) else h
    case RemoveAll(id) => RemovedAll(h, Filter(h.active, BelongsTo(id)), Working(), 0)
  }

  function PerformAll(h: Host, ops: seq<Op>): Host
    decreases |ops|
  {
    if ops == [] then h else PerformAll(Perform(h, ops[0]), ops[1..])
  }

  lemma {:induction false} AgreementIsKept(base: Base, h: Host, ops: seq<Op>)
    requires Agrees(base, h)
    ensures Agrees(base, PerformAll(h, ops))
    decreases |ops|
  {
    hide Agrees;
    if ops != [] {
      match ops[0] {
        case Add(m) => AllWorkAgrees(base, h, m);
        case RemoveActive(i) => if i < |h.active| { RemoveKeepsAgreement(base, h, h.active[i]); }
        case RemoveAll(id) => RemoveAllKeepsAgreement(base, h, id, Working(), 0);
      }
      AgreementIsKept(base, Perform(h, ops[0]), ops[1..]);
    }
  }

  /** In every run from a new forwarder the chains hold their first content and the active rules. */
  lemma {:induction false} EveryRunAgrees(chains: Chains, ops: seq<Op>)
    ensures Agrees(BaseOf(chains), PerformAll(Host([], chains), ops))
  {
    AgreementIsKept(BaseOf(chains), Host([], chains), ops);
  }

  /** Once everything has been removed, the chains are as they were found. */
  lemma NothingLeftOver(chains: Chains, ops: seq<Op>)
    requires PerformAll(Host([], chains), ops).active == []
    ensures BaseOf(PerformAll(Host([], chains), ops).chains) == BaseOf(chains)
  {
    EveryRunAgrees(chains, ops);
  }
}
