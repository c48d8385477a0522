/**
 The sliding-window limiter of the suggestion form: a table from client to the times of
 its accepted requests, pruned on every call.
 */
module RateLimit {
  import opened Seqs

  type Client = string
  type Time = real

  const RATE_LIMIT_WINDOW: Time := 300.0
  const RATE_LIMIT_MAX_REQUESTS: nat := 5

  /** Accepted requests, oldest first. */
  datatype Request = Request(client: Client, at: Time)

  function Get(store: map<Client, seq<Time>>, client: Client): seq<Time> {
    if client in store then store[client] else []
  }

  function Recent(now: Time): Time -> bool { (ts: Time) => now - ts < RATE_LIMIT_WINDOW }

  function Pruned(store: map<Client, seq<Time>>, r: Request): seq<Time> {
    Filter(Get(store, r.client), Recent(r.at))
  }

  /** What a call leaves in the table; a refused request leaves the pruned entry. */
  function Checked(store: map<Client, seq<Time>>, r: Request): map<Client, seq<Time>> {
    var kept := Pruned(store, r);
    store[r.client := if |kept| >= RATE_LIMIT_MAX_REQUESTS then kept else kept + [r.at]]
  }

  class Limiter {
    var store: map<Client, seq<Time>>

    constructor ()
      ensures store == map[]
    {
      store := map[];
    }

    method CheckRateLimit(client: Client, now: Time) returns (accepted: bool)
      modifies this
      ensures store == Checked(old(store), Request(client, now))
      ensures accepted <==> |Pruned(old(store), Request(client, now))| < RATE_LIMIT_MAX_REQUESTS
      ensures forall other :: other != client ==> Get(store, other) == Get(old(store), other)
    {
      store := store[client := Filter(Get(store, client), Recent(now))];
      if |store[client]| >= RATE_LIMIT_MAX_REQUESTS {
        return false;
      }
      store := store[client := store[client] + [now]];
      return true;
    }
  }

  // ---- Against the whole history -------------------------------------------

  /** The limiter as its users see it: the table and every request ever accepted. */
  datatype Service = Service(store: map<Client, seq<Time>>, accepted: seq<Request>)

  predicate Accepts(s: Service, r: Request) { |Pruned(s.store, r)| < RATE_LIMIT_MAX_REQUESTS }

  function Submit(s: Service, r: Request): Service {
    Service(Checked(s.store, r), if Accepts(s, r) then s.accepted + [r] else s.accepted)
  }

  function SubmitAll(s: Service, rs: seq<Request>): Service
    decreases |rs|
  {
    if rs == [] then s else SubmitAll(Submit(s, rs[0]), rs[1..])
  }

  predicate NonDecreasing(rs: seq<Request>) { forall i, j :: 0 <= i < j < |rs| ==> rs[i].at <= rs[j].at }

  /** Of one client, accepted less than a window before `now`. */
  function RecentOf(client: Client, now: Time): Request -> bool {
    (r: Request) => r.client == client && now - r.at < 300.0
  }

  function Between(client: Client, a: Time, b: Time): Request -> bool {
    (r: Request) => r.client == client && a <= r.at <= b
  }

  /** From `since` on, the table answers as the history would. */
  ghost predicate Faithful(s: Service, since: Time) {
    forall client, now :: now >= since ==>
      Count(Get(s.store, client), Recent(now)) == Count(s.accepted, RecentOf(client, now))
  }

  lemma PrunedCounts(s: Service, r: Request, now: Time)
    requires now >= r.at
    ensures Count(Pruned(s.store, r), Recent(now)) == Count(Get(s.store, r.client), Recent(now))
  {
    CountOfFilter(Get(s.store, r.client), Recent(r.at), Recent(now), Recent(now));
  }

  lemma SubmitKeepsFaithful(s: Service, r: Request, since: Time)
    requires Faithful(s, since) && r.at >= since
    ensures Faithful(Submit(s, r), r.at)
  {
    var v := Submit(s, r);
    forall client, now | now >= r.at
      ensures Count(Get(v.store, client), Recent(now)) == Count(v.accepted, RecentOf(client, now))
    {
      CountAppend(s.accepted, r, RecentOf(client, now));
      CountAppend(Pruned(s.store, r), r.at, Recent(now));
      PrunedCounts(s, r, now);
      assert Count(Get(s.store, client), Recent(now)) == Count(s.accepted, RecentOf(client, now));
    }
  }

  /** A request is refused exactly when five of its client were accepted within the window. */
  lemma RefusedIffFiveRecent(s: Service, r: Request, since: Time)
    requires Faithful(s, since) && r.at >= since
    ensures !Accepts(s, r) <==> Count(s.accepted, RecentOf(r.client, r.at)) >= 5
  {
    assert Count(Get(s.store, r.client), Recent(r.at)) == Count(s.accepted, RecentOf(r.client, r.at));
  }

  /** No window shorter than 300 seconds holds more than five. */
  ghost predicate Bounded(accepted: seq<Request>) {
    forall client, a, b :: b - a < 300.0 ==> Count(accepted, Between(client, a, b)) <= 5
  }

  lemma SubmitKeepsBounded(s: Service, r: Request, since: Time)
    requires Faithful(s, since) && r.at >= since && Bounded(s.accepted)
    ensures Bounded(Submit(s, r).accepted)
  {
    if Accepts(s, r) {
      RefusedIffFiveRecent(s, r, since);
      forall client, a, b | b - a < RATE_LIMIT_WINDOW
        ensures Count(s.accepted + [r], Between(client, a, b)) <= RATE_LIMIT_MAX_REQUESTS
      {
        CountAppend(s.accepted, r, Between(client, a, b));
        if Between(client, a, b)(r) {
          CountMono(s.accepted, Between(client, a, b), RecentOf(client, r.at));
        } else {
          assert Count(s.accepted, Between(client, a, b)) <= RATE_LIMIT_MAX_REQUESTS;
        }
      }
    }
  }

  lemma {:induction false} RunsStayBounded(s: Service, rs: seq<Request>, since: Time)
    requires Faithful(s, since) && Bounded(s.accepted) && NonDecreasing(rs)
    requires rs != [] ==> rs[0].at >= since
    ensures Bounded(SubmitAll(s, rs).accepted)
    ensures Faithful(SubmitAll(s, rs), if rs == [] then since else rs[|rs| - 1].at)
    decreases |rs|
  {
    hide Faithful, Bounded, Submit;
    if rs != [] {
      SubmitKeepsFaithful(s, rs[0], since);
      SubmitKeepsBounded(s, rs[0], since);
      RunsStayBounded(Submit(s, rs[0]), rs[1..], rs[0].at);
    }
  }

  /** Any requests of any clients, in time order: the bound, and why the next one is refused. */
  lemma EveryRunIsLimited(rs: seq<Request>, next: Request)
    requires NonDecreasing(rs + [next])
    ensures var s := SubmitAll(Service(map[], []), rs);
      && Bounded(s.accepted)
      && (!Accepts(s, next) <==> Count(s.accepted, RecentOf(next.client, next.at)) >= 5)
  {
    var start := Service(map[], []);
    var since := if rs == [] then next.at else rs[0].at;
    assert Faithful(start, since) && Bounded(start.accepted);
    assert forall i :: 0 <= i < |rs| ==> (rs + [next])[i] == rs[i];
    assert NonDecreasing(rs);
    var s := SubmitAll(start, rs);
    RunsStayBounded(start, rs, since);
    assert rs != [] ==> (rs + [next])[|rs| - 1].at <= (rs + [next])[|rs|].at;
    hide SubmitAll, Bounded;
    RefusedIffFiveRecent(s, next, if rs == [] then since else rs[|rs| - 1].at);
  }

  /** The table never holds more than five times for a client. */
  lemma {:induction false} TableStaysSmall(s: Service, rs: seq<Request>, client: Client)
    requires |Get(s.store, client)| <= RATE_LIMIT_MAX_REQUESTS
    ensures |Get(SubmitAll(s, rs).store, client)| <= 5
    decreases |rs|
  {
    if rs != [] {
      assert |Pruned(s.store, rs[0])| <= |Get(s.store, rs[0].client)| by {
        CountAtMost(Get(s.store, rs[0].client), Recent(rs[0].at));
      }
      TableStaysSmall(Submit(s, rs[0]), rs[1..], client);
    }
  }
}
