/**
 The start order of a manifest's services: a depth-first walk that marks services in
 place, proved sound and complete, and the checks a manifest has to pass before it.
 */
module StartOrder {
  import opened Wrappers

  type Name = string

  datatype Service = Service(
    name: Name, cpu: int, memory: int, restart: string, replicas: int, dependsOn: seq<Name>)

  /** A dictionary of services and the order its keys were inserted in. */
  datatype Manifest = Manifest(version: int, names: seq<Name>, services: map<Name, Service>)

  ghost predicate WellFormed(m: Manifest) {
    && (forall i, j :: 0 <= i < j < |m.names| ==> m.names[i] != m.names[j])
    && (forall n :: n in m.names <==> n in m.services)
  }

  datatype Outcome = Fine | Circular(name: Name) | Unknown(name: Name)

  // ---- What an order has to satisfy ----------------------------------------

  predicate Edge(m: Manifest, a: Name, b: Name) { a in m.services && b in m.services[a].dependsOn }

  predicate IsPath(m: Manifest, p: seq<Name>) {
    |p| >= 1 && forall i :: 0 <= i < |p| - 1 ==> Edge(m, p[i], p[i + 1])
  }

  predicate Connects(m: Manifest, p: seq<Name>, a: Name, b: Name) {
    IsPath(m, p) && |p| >= 2 && p[0] == a && p[|p| - 1] == b
  }

  /** `a` needs `b`, directly or through others. */
  ghost predicate Needs(m: Manifest, a: Name, b: Name) { exists p :: Connects(m, p, a, b) }

  ghost predicate Acyclic(m: Manifest) { forall n :: !Needs(m, n, n) }

  predicate Missing(m: Manifest, a: Name, b: Name) { Edge(m, a, b) && b !in m.services }

  ghost predicate Resolved(m: Manifest) { forall a, b :: !Missing(m, a, b) }

  predicate NoRepeats(s: seq<Name>) { forall i, j :: 0 <= i < j < |s| ==> s[i] != s[j] }

  /** Every entry is a service whose dependencies are all among the entries before it. */
  predicate Grounded(m: Manifest, order: seq<Name>) {
    forall i :: 0 <= i < |order| ==>
      order[i] in m.services && forall d :: d in m.services[order[i]].dependsOn ==> d in order[..i]
  }

  ghost predicate IsStartOrder(m: Manifest, order: seq<Name>) {
    NoRepeats(order) && Grounded(m, order) && forall n :: n in order <==> n in m.services
  }

  // ---- The walk ------------------------------------------------------------

  class Walk {
    const m: Manifest
    var visited: set<Name>
    var visiting: set<Name>
    var order: seq<Name>

    constructor (m: Manifest)
      ensures this.m == m && Valid() && visiting == {} && order == []
    {
      this.m, visited, visiting, order := m, {}, {}, [];
    }

    ghost predicate Valid()
      reads this
    {
      && visited == (set n | n in order)
      && visited !! visiting
      && NoRepeats(order) && Grounded(m, order)
    }

    /** `path` is how the walk came to be here; it is what is being visited. */
    ghost predicate Reached(path: seq<Name>, name: Name)
      reads this
    {
      && visiting == (set n | n in path)
      && IsPath(m, path + [name])
      && (path == [] ==> name in m.services)
      && visiting <= m.services.Keys
    }

    method Visit(name: Name, ghost path: seq<Name>) returns (outcome: Outcome)
      requires Valid() && Reached(path, name)
      modifies this
      ensures outcome.Fine? ==> Valid() && visiting == old(visiting) && old(order) <= order && name in order
      ensures outcome.Circular? ==> Needs(m, outcome.name, outcome.name)
      ensures outcome.Unknown? ==> exists a :: Missing(m, a, outcome.name)
      decreases m.services.Keys - visiting
    {
      if name in visited {
        return Fine;
      }
      if name in visiting {
        CycleOnPath(m, path, name);
        return Circular(name);
      }
      visiting := visiting + {name};
      if name !in m.services {
        ghost var whole := path + [name];
        assert Edge(m, whole[|path| - 1], whole[|path|]);
        assert Missing(m, path[|path| - 1], name);
        return Unknown(name);
      }
      ghost var here := path + [name];
      var dependsOn := m.services[name].dependsOn;
      for i := 0 to |dependsOn|
        invariant Valid() && visiting == old(visiting) + {name} && old(order) <= order
        invariant visiting == (set n | n in here)
        invariant forall j :: 0 <= j < i ==> dependsOn[j] in order
      {
        LongerPath(m, here, dependsOn[i]);
        outcome := Visit(dependsOn[i], here);
        if !outcome.Fine? {
          return;
        }
      }
      Appended(m, order, name);
      visiting := visiting - {name};
      visited := visited + {name};
      order := order + [name];
      return Fine;
    }
  }

  lemma Appended(m: Manifest, order: seq<Name>, name: Name)
    requires NoRepeats(order) && Grounded(m, order) && name !in order && name in m.services
    requires forall j :: 0 <= j < |m.services[name].dependsOn| ==> m.services[name].dependsOn[j] in order
    ensures NoRepeats(order + [name]) && Grounded(m, order + [name])
  {
    var longer := order + [name];
    forall i | 0 <= i < |longer|
      ensures longer[i] in m.services
      ensures forall d :: d in m.services[longer[i]].dependsOn ==> d in longer[..i]
    {
      assert longer[..i] == order[..i];
      assert order[..|order|] == order;
    }
  }

  lemma LongerPath(m: Manifest, here: seq<Name>, next: Name)
    requires IsPath(m, here) && Edge(m, here[|here| - 1], next)
    ensures IsPath(m, here + [next])
  {
  }

  lemma TailPath(m: Manifest, p: seq<Name>, k: nat)
    requires IsPath(m, p) && k < |p|
    ensures IsPath(m, p[k..])
  {
    forall i | 0 <= i < |p| - k - 1 ensures Edge(m, p[k..][i], p[k..][i + 1]) {
      assert Edge(m, p[k + i], p[k + i + 1]);
    }
  }

  /** Coming back to a service on the path closes a cycle. */
  lemma {:induction false} CycleOnPath(m: Manifest, path: seq<Name>, name: Name)
    requires IsPath(m, path + [name]) && name in path
    ensures Needs(m, name, name)
  {
    var k :| 0 <= k < |path| && path[k] == name;
    var whole := path + [name];
    var cycle := whole[k..];
    TailPath(m, whole, k);
    assert Connects(m, cycle, name, name);
  }

  method GetStartOrder(m: Manifest) returns (result: Result<seq<Name>, Outcome>)
    requires WellFormed(m)
    ensures result.Ok? <==> Resolved(m) && Acyclic(m)
    ensures result.Ok? ==> IsStartOrder(m, result.value)
    ensures result.Err? ==> !result.error.Fine?
    ensures result.Err? && result.error.Circular? ==> Needs(m, result.error.name, result.error.name)
    ensures result.Err? && result.error.Unknown? ==> exists a :: Missing(m, a, result.error.name)
  {
    var walk := new Walk(m);
    for i := 0 to |m.names|
      invariant fresh(walk) && walk.Valid() && walk.visiting == {}
      invariant forall j :: 0 <= j < i ==> m.names[j] in walk.order
    {
      var outcome := walk.Visit(m.names[i], []);
      if !outcome.Fine? {
        return Err(outcome);
      }
    }
    assert IsStartOrder(m, walk.order);
    OrderedIsSound(m, walk.order);
    return Ok(walk.order);
  }

  // ---- What an order promises ----------------------------------------------

  /** Everything a service needs, directly or not, comes before it. */
  lemma {:induction false} NeededComesBefore(m: Manifest, order: seq<Name>, p: seq<Name>, i: nat)
    requires NoRepeats(order) && Grounded(m, order)
    requires IsPath(m, p) && |p| >= 2 && i < |order| && p[0] == order[i]
    ensures p[|p| - 1] in order[..i]
    decreases |p|
  {
    assert Edge(m, p[0], p[1]) && p[1] in order[..i];
    var j :| 0 <= j < i && order[j] == p[1];
    if |p| > 2 {
      TailPath(m, p, 1);
      NeededComesBefore(m, order, p[1..], j);
      assert order[..j] <= order[..i];
    }
  }

  /** There is a start order only if every name is known and no service needs itself. */
  lemma OrderedIsSound(m: Manifest, order: seq<Name>)
    requires IsStartOrder(m, order)
    ensures Resolved(m) && Acyclic(m)
  {
    forall a, b ensures !Missing(m, a, b) {
      if Edge(m, a, b) {
        var i :| 0 <= i < |order| && order[i] == a;
        assert b in order[..i];
      }
    }
    forall n ensures !Needs(m, n, n) {
      if p :| Connects(m, p, n, n) {
        assert Edge(m, p[0], p[1]);
        var i :| 0 <= i < |order| && order[i] == n;
        NeededComesBefore(m, order, p, i);
      }
    }
  }

  function Reversed(s: seq<Name>): seq<Name> { seq(|s|, i requires 0 <= i < |s| => s[|s| - 1 - i]) }

  /** Stopping in the reverse order stops a service before anything it needs. */
  lemma StopsBeforeWhatItNeeds(m: Manifest, order: seq<Name>, a: Name, b: Name, i: nat, j: nat)
    requires IsStartOrder(m, order) && Needs(m, a, b)
    requires i < |order| && j < |order| && Reversed(order)[i] == a && Reversed(order)[j] == b
    ensures i < j
  {
    var p :| Connects(m, p, a, b);
    NeededComesBefore(m, order, p, |order| - 1 - i);
  }

  // ---- Accepting a manifest ------------------------------------------------

  datatype ManifestError =
    | UnsupportedVersion
    | NoServices
    | UnknownDependency(name: Name, dependency: Name)
    | InvalidService(name: Name)
    | NoOrder(outcome: Outcome)

  const SUPPORTED_VERSIONS := {1}

  predicate ValidService(s: Service) {
    && s.name != "" && 1 <= s.cpu <= 100 && s.memory >= 4
    && s.restart in ["no", "always", "on-failure"] && s.replicas >= 1
  }

  /** A manifest is accepted exactly when a start order for it exists and its fields are in range. */
  method BuildManifest(m: Manifest) returns (result: Result<Manifest, ManifestError>)
    requires WellFormed(m)
    ensures result.Ok? <==>
      && m.version == 1 && m.names != [] && Resolved(m) && Acyclic(m)
      && forall n :: n in m.services ==>
           var s := m.services[n];
           s.name != "" && 1 <= s.cpu <= 100 && s.memory >= 4 && s.replicas >= 1
           && (s.restart == "no" || s.restart == "always" || s.restart == "on-failure")
    ensures result.Ok? ==> result.value == m
    ensures result.Err? ==> match result.error
      case UnsupportedVersion => m.version != 1
      case NoServices => m.names == []
      case UnknownDependency(a, b) => Missing(m, a, b)
      case InvalidService(n) => n in m.services && !ValidService(m.services[n])
      case NoOrder(outcome) => Resolved(m) && outcome.Circular? && Needs(m, outcome.name, outcome.name)
  {
    if m.version !in SUPPORTED_VERSIONS {
      return Err(UnsupportedVersion);
    }
    if m.names == [] {
      return Err(NoServices);
    }
    for i := 0 to |m.names|
      invariant forall j, b :: 0 <= j < i ==> !Missing(m, m.names[j], b)
    {
      var s := m.services[m.names[i]];
      for k := 0 to |s.dependsOn|
        invariant forall j :: 0 <= j < k ==> s.dependsOn[j] in m.services
      {
        if s.dependsOn[k] !in m.services {
          assert Missing(m, m.names[i], s.dependsOn[k]);
          return Err(UnknownDependency(m.names[i], s.dependsOn[k]));
        }
      }
    }
    assert Resolved(m);
    for i := 0 to |m.names|
      invariant forall j :: 0 <= j < i ==> ValidService(m.services[m.names[j]])
    {
      if !ValidService(m.services[m.names[i]]) {
        return Err(InvalidService(m.names[i]));
      }
    }
    var order := GetStartOrder(m);
    if order.Err? {
      return Err(NoOrder(order.error));
    }
    return Ok(m);
  }
}
