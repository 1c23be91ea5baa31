/** The authentication rate limiter: a token bucket per client address, in a map of bounded size. */
module TokenBucket {
  import opened Tables

  /** Instants and durations are in nanoseconds, tokens and rates are real numbers. */
  const SECOND := 1_000_000_000

  datatype Bucket = Bucket(tokens: real, lastRefill: Time, lastSeen: Time)

  /** Tokens per second, and the most a bucket holds. */
  datatype Limits = Limits(rate: real, burst: real, maxClients: nat, entryTtl: Time)

  predicate ValidLimits(l: Limits) {
    l.rate > 0.0 && l.burst >= 1.0 && l.maxClients >= 1 && l.entryTtl > 0
  }

  function NewLimits(requestsPerMinute: int, burst: int, maxClients: int, entryTtl: Time): (l: Option<Limits>)
    ensures l.Some? ==> ValidLimits(l.value)
  {
    if requestsPerMinute < 1 || burst < 1 || maxClients < 1 || entryTtl <= 0 then None
    else Some(Limits(requestsPerMinute as real / 60.0, burst as real, maxClients, entryTtl))
  }

  function Seconds(d: Time): real {
    d as real / SECOND as real
  }

  function Ceil(x: real): int {
    -((-x).Floor)
  }

  function Filled(l: Limits, now: Time): Bucket {
    Bucket(l.burst, now, now)
  }

  function Refill(l: Limits, b: Bucket, now: Time): Bucket {
    if now > b.lastRefill then
      var tokens := b.tokens + Seconds(now - b.lastRefill) * l.rate;
      b.(tokens := if tokens < l.burst then tokens else l.burst, lastRefill := now)
    else b
  }

  predicate Admits(l: Limits, b: Bucket, now: Time) {
    Refill(l, b, now).tokens >= 1.0
  }

  /** The bucket after a request at `now`. */
  function Serve(l: Limits, b: Bucket, now: Time): Bucket {
    var r := Refill(l, b, now).(lastSeen := now);
    if r.tokens >= 1.0 then r.(tokens := r.tokens - 1.0) else r
  }

  /** How long a client that is turned away should wait. */
  function Wait(l: Limits, b: Bucket, now: Time): Time
    requires l.rate > 0.0
  {
    if Admits(l, b, now) then 0 else Ceil((1.0 - Refill(l, b, now).tokens) / l.rate * SECOND as real)
  }

  predicate BucketOk(l: Limits, b: Bucket) {
    0.0 <= b.tokens <= l.burst
  }

  /** `Retry-After`, section 10.2.3 of RFC 9110: whole seconds, at least one. */
  function RetryAfter(wait: Time): int {
    Max(1, Ceil(Seconds(wait)))
  }

  function ClientAddress(host: Option<string>, remoteAddr: string): (client: string)
    ensures client != ""
  {
    if host.Some? && host.value != "" then host.value
    else if remoteAddr == "" then "unknown"
    else remoteAddr
  }

  // ---------------------------------------------------------------- one bucket

  lemma CeilIsAbove(x: real)
    ensures x <= Ceil(x) as real < x + 1.0
  {
  }

  /** The header never tells a client to come back too early. */
  lemma RetryAfterIsLongEnough(wait: Time)
    ensures RetryAfter(wait) * SECOND >= wait && RetryAfter(wait) >= 1
  {
    CeilIsAbove(Seconds(wait));
    assert Ceil(Seconds(wait)) as real * SECOND as real >= wait as real;
    assert (Ceil(Seconds(wait)) * SECOND) as real >= wait as real;
  }

  lemma ServeKeepsOk(l: Limits, b: Bucket, now: Time)
    requires ValidLimits(l) && BucketOk(l, b)
    ensures BucketOk(l, Serve(l, b, now)) && b.lastRefill <= Serve(l, b, now).lastRefill
    ensures Serve(l, b, now).lastRefill == if now > b.lastRefill then now else b.lastRefill
  {
    if now > b.lastRefill {
      Positive(Seconds(now - b.lastRefill), l.rate);
    }
  }

  lemma Positive(x: real, y: real)
    requires x >= 0.0 && y >= 0.0
    ensures x * y >= 0.0
  {
  }

  /** A request that is admitted is paid for by the tokens refilled since the last one. */
  lemma ServePays(l: Limits, b: Bucket, now: Time)
    requires ValidLimits(l) && BucketOk(l, b)
    ensures
      var after := Serve(l, b, now);
      after.tokens + (if Admits(l, b, now) then 1.0 else 0.0)
        <= b.tokens + Seconds(after.lastRefill - b.lastRefill) * l.rate
  {
    assert Seconds(0) * l.rate == 0.0;
  }

  /**
   * A client that is turned away and keeps quiet for the time it was told is admitted: its bucket has
   * refilled by then.
   */
  lemma WaitIsEnough(l: Limits, b: Bucket, now: Time, later: Time)
    requires ValidLimits(l) && BucketOk(l, b) && b.lastRefill <= now
    requires !Admits(l, b, now) && later >= now + Wait(l, b, now)
    ensures Wait(l, b, now) >= 1 && Admits(l, Serve(l, b, now), later)
  {
    var r := Refill(l, b, now);
    ServeKeepsOk(l, b, now);
    assert Serve(l, b, now) == r.(lastSeen := now) && r.lastRefill == now && r.tokens < 1.0;
    var missing := (1.0 - r.tokens) / l.rate;
    Quotient(1.0 - r.tokens, l.rate);
    var nanos := missing * SECOND as real;
    CeilIsAbove(nanos);
    assert Wait(l, b, now) == Ceil(nanos);
    hide Refill, Serve, Ceil, Wait;
    RefilledEnough(r.tokens, l.rate, later - now);
    AdmitsWhenRefilled(l, Serve(l, b, now), later);
  }

  lemma RefilledEnough(tokens: real, rate: real, d: Time)
    requires rate > 0.0 && tokens < 1.0 && d as real >= (1.0 - tokens) / rate * SECOND as real
    ensures tokens + Seconds(d) * rate >= 1.0
  {
    var missing := (1.0 - tokens) / rate;
    Quotient(1.0 - tokens, rate);
    assert Seconds(d) >= missing;
    Scale(missing, Seconds(d), rate);
  }

  lemma AdmitsWhenRefilled(l: Limits, b: Bucket, now: Time)
    requires l.burst >= 1.0 && now > b.lastRefill && b.tokens + Seconds(now - b.lastRefill) * l.rate >= 1.0
    ensures Admits(l, b, now)
  {
  }

  lemma Quotient(x: real, y: real)
    requires x > 0.0 && y > 0.0
    ensures x / y > 0.0 && (x / y) * y == x
  {
  }

  lemma Scale(x: real, y: real, factor: real)
    requires x <= y && factor >= 0.0
    ensures x * factor <= y * factor
  {
  }

  // ---------------------------------------------------------------- the map of clients

  type Clients = map<string, Bucket>

  /** The clients seen recently enough to keep their place. */
  ghost function Live(l: Limits, clients: Clients, now: Time): set<string> {
    set k | k in clients && now - clients[k].lastSeen < l.entryTtl
  }

  /**
   * A newcomer costs exactly the expired clients their place and, only if the map is full without them,
   * one client more, which nobody was seen before.
   */
  ghost predicate MakesRoom(l: Limits, before: Clients, after: Clients, client: string, now: Time) {
    var live := Live(l, before, now);
    if |live| < l.maxClients then after.Keys == live + {client}
    else exists victim | victim in live ::
           && after.Keys == live - {victim} + {client}
           && forall k | k in live :: before[victim].lastSeen <= before[k].lastSeen
  }

  /**
   * What one request does. A new client may cost others their place; whoever keeps it keeps its bucket,
   * and a newcomer starts with a full one.
   */
  ghost predicate IsAllow(l: Limits, before: Clients, after: Clients, client: string, now: Time, allowed: bool, wait: Time)
    requires l.rate > 0.0
  {
    var b := if client in before then before[client] else Filled(l, now);
    && client in after && after[client] == Serve(l, b, now)
    && allowed == Admits(l, b, now) && wait == Wait(l, b, now)
    && (forall k | k in after && k != client :: k in before && after[k] == before[k])
    && (if client in before then after.Keys == before.Keys else MakesRoom(l, before, after, client, now))
  }

  ghost predicate ClientsOk(l: Limits, clients: Clients) {
    && "" !in clients && |clients| <= l.maxClients
    && forall k | k in clients :: BucketOk(l, clients[k])
  }

  lemma SameRoom(l: Limits, before: Clients, x: Clients, y: Clients, client: string, now: Time)
    requires x.Keys == y.Keys
    ensures MakesRoom(l, before, x, client, now) ==> MakesRoom(l, before, y, client, now)
  {
  }

  lemma AddedSize(clients: Clients, client: string, b: Bucket)
    requires client !in clients
    ensures |clients[client := b]| == |clients| + 1
  {
    assert clients[client := b].Keys == clients.Keys + {client};
  }

  class Limiter {
    const limits: Limits
    var clients: Clients

    ghost predicate Valid()
      reads this
    {
      ValidLimits(limits) && ClientsOk(limits, clients)
    }

    /** As `NewAuthRateLimiter` builds it from an accepted configuration. */
    constructor (requestsPerMinute: int, burst: int, maxClients: int, entryTtl: Time)
      requires NewLimits(requestsPerMinute, burst, maxClients, entryTtl).Some?
      ensures Valid() && clients == map[] && Some(limits) == NewLimits(requestsPerMinute, burst, maxClients, entryTtl)
    {
      limits, clients := NewLimits(requestsPerMinute, burst, maxClients, entryTtl).value, map[];
    }

    method Allow(client: string, now: Time) returns (allowed: bool, wait: Time)
      requires Valid() && client != ""
      modifies this
      ensures Valid()
      ensures IsAllow(limits, old(clients), clients, client, now, allowed, wait)
    {
      hide Serve, Admits, Wait, MakesRoom;
      if client !in clients {
        AddClient(client, now);
      }
      ghost var placed := clients;
      ServeKeepsOk(limits, clients[client], now);
      allowed, wait := Spend(client, now);
      SameRoom(limits, old(clients), placed, clients, client, now);
    }

    /** Refills the client's bucket and takes a token from it, if there is one. */
    method Spend(client: string, now: Time) returns (allowed: bool, wait: Time)
      requires ValidLimits(limits) && client in clients
      modifies this
      ensures clients == old(clients)[client := Serve(limits, old(clients)[client], now)] && clients.Keys == old(clients).Keys
      ensures |clients| == |old(clients)|
      ensures allowed == Admits(limits, old(clients)[client], now) && wait == Wait(limits, old(clients)[client], now)
    {
      hide Refill, Ceil;
      var bucket := Refill(limits, clients[client], now);
      bucket := bucket.(lastSeen := now);
      allowed, wait := false, 0;
      if bucket.tokens >= 1.0 {
        bucket := bucket.(tokens := bucket.tokens - 1.0);
        allowed := true;
      } else {
        wait := Ceil((1.0 - bucket.tokens) / limits.rate * SECOND as real);
      }
      clients := clients[client := bucket];
      assert clients.Keys == old(clients).Keys;
    }

    /** Makes room for a client and gives it a full bucket. */
    method AddClient(client: string, now: Time)
      requires Valid() && client != "" && client !in clients
      modifies this
      ensures Valid() && client in clients && clients[client] == Filled(limits, now)
      ensures forall k | k in clients && k != client :: k in old(clients) && clients[k] == old(clients)[k]
      ensures MakesRoom(limits, old(clients), clients, client, now)
    {
      RemoveExpired(now);
      assert clients.Keys == Live(limits, old(clients), now);
      ghost var live := clients;
      assert |live.Keys| == |live|;
      if |clients| >= limits.maxClients {
        RemoveOldest();
      }
      AddedSize(clients, client, Bucket(limits.burst, now, now));
      ghost var kept := clients;
      clients := clients[client := Bucket(limits.burst, now, now)];
      assert clients.Keys == kept.Keys + {client};
    }

    method RemoveExpired(now: Time)
      modifies this
      ensures clients.Keys <= old(clients).Keys && |clients| <= |old(clients)|
      ensures forall k | k in clients :: clients[k] == old(clients)[k]
      ensures forall k | k in old(clients) :: k in clients <==> now - old(clients)[k].lastSeen < limits.entryTtl
    {
      var rest := clients.Keys;
      while rest != {}
        invariant rest <= old(clients).Keys && clients.Keys <= old(clients).Keys && |clients| <= |old(clients)|
        invariant forall k | k in clients :: clients[k] == old(clients)[k]
        invariant forall k | k in rest :: k in clients
        invariant forall k | k in old(clients) && k !in rest :: k in clients <==> now - old(clients)[k].lastSeen < limits.entryTtl
        decreases |rest|
      {
        var client :| client in rest;
        rest := rest - {client};
        if now - clients[client].lastSeen >= limits.entryTtl {
          ghost var before := clients;
          clients := clients - {client};
          assert clients.Keys == before.Keys - {client};
        }
      }
    }

    method RemoveOldest()
      requires "" !in clients
      modifies this
      ensures clients.Keys <= old(clients).Keys
      ensures forall k | k in clients :: clients[k] == old(clients)[k]
      ensures old(clients) != map[] ==>
        exists k | k in old(clients) ::
          && clients == old(clients) - {k} && |clients| == |old(clients)| - 1
          && forall other | other in old(clients) :: old(clients)[k].lastSeen <= old(clients)[other].lastSeen
      ensures old(clients) == map[] ==> clients == map[]
    {
      var oldestClient, oldest := "", 0;
      var rest := clients.Keys;
      while rest != {}
        invariant clients == old(clients) && rest <= clients.Keys
        invariant oldestClient == "" <==> rest == clients.Keys
        invariant oldestClient != "" ==> oldestClient in clients && oldest == clients[oldestClient].lastSeen
        invariant oldestClient != "" ==> forall k | k in clients && k !in rest :: oldest <= clients[k].lastSeen
        decreases |rest|
      {
        var client :| client in rest;
        rest := rest - {client};
        if oldestClient == "" || clients[client].lastSeen < oldest {
          oldestClient, oldest := client, clients[client].lastSeen;
        }
      }
      if oldestClient != "" {
        clients := clients - {oldestClient};
        assert clients.Keys == old(clients).Keys - {oldestClient};
      }
    }
  }

  // ---------------------------------------------------------------- traces

  datatype Request = Request(client: string, now: Time, allowed: bool, wait: Time)

  /** A run of the limiter: the states between the requests. */
  ghost predicate IsTrace(l: Limits, states: seq<Clients>, requests: seq<Request>)
    requires l.rate > 0.0
  {
    && |states| == |requests| + 1
    && forall i | 0 <= i < |requests| ::
         IsAllow(l, states[i], states[i + 1], requests[i].client, requests[i].now, requests[i].allowed, requests[i].wait)
  }

  /** How many of the client's requests were admitted. */
  ghost function Admitted(requests: seq<Request>, client: string): nat {
    if requests == [] then 0
    else
      var last := requests[|requests| - 1];
      Admitted(requests[..|requests| - 1], client) + (if last.client == client && last.allowed then 1 else 0)
  }

  /** The requests admitted were paid for by the tokens there were and those refilled since. */
  ghost predicate IsPaid(l: Limits, first: Bucket, last: Bucket, admitted: nat) {
    && BucketOk(l, last) && first.lastRefill <= last.lastRefill
    && last.tokens + admitted as real <= first.tokens + Seconds(last.lastRefill - first.lastRefill) * l.rate
  }

  /**
   * While a client stays in the map, the requests admitted are at most the burst plus the rate times the
   * time between its first and last refill, whatever the clock does and whoever else comes.
   */
  lemma {:induction false} AdmissionsAreBounded(l: Limits, states: seq<Clients>, requests: seq<Request>, client: string)
    requires ValidLimits(l) && IsTrace(l, states, requests) && client in states[0] && BucketOk(l, states[0][client])
    requires forall i | 0 <= i < |states| :: client in states[i]
    ensures IsPaid(l, states[0][client], states[|requests|][client], Admitted(requests, client))
    decreases |requests|
  {
    hide IsAllow, IsPaid, BucketOk;
    if requests == [] {
      NothingToPay(l, states[0][client]);
    } else {
      var n := |requests| - 1;
      assert IsTrace(l, states[..n + 1], requests[..n]);
      AdmissionsAreBounded(l, states[..n + 1], requests[..n], client);
      OneMoreRequest(l, states[0][client], states[n], states[n + 1], requests[n], client, Admitted(requests[..n], client));
    }
  }

  lemma NothingToPay(l: Limits, b: Bucket)
    requires BucketOk(l, b)
    ensures IsPaid(l, b, b, 0)
  {
    assert Seconds(0) * l.rate == 0.0;
  }

  lemma OneMoreRequest(l: Limits, first: Bucket, before: Clients, after: Clients, r: Request, client: string, admitted: nat)
    requires ValidLimits(l) && IsAllow(l, before, after, r.client, r.now, r.allowed, r.wait)
    requires client in before && client in after && IsPaid(l, first, before[client], admitted)
    ensures IsPaid(l, first, after[client], admitted + (if r.client == client && r.allowed then 1 else 0))
  {
    hide MakesRoom;
    if r.client == client {
      var middle := before[client];
      ServeKeepsOk(l, middle, r.now);
      ServePays(l, middle, r.now);
      hide Serve, Admits, Wait, BucketOk, Seconds;
      AddUp(middle.lastRefill - first.lastRefill, after[client].lastRefill - middle.lastRefill, l.rate);
    }
  }

  lemma AddUp(x: Time, y: Time, rate: real)
    ensures Seconds(x) * rate + Seconds(y) * rate == Seconds(x + y) * rate
  {
    assert Seconds(x) + Seconds(y) == Seconds(x + y);
  }

  /** How often the client lost its place. */
  ghost function Evictions(states: seq<Clients>, client: string): nat {
    if |states| <= 1 then 0
    else
      var n := |states| - 1;
      Evictions(states[..n], client) + (if client in states[n - 1] && client !in states[n] then 1 else 0)
  }

  /** The clock when the run so far was over. */
  ghost function Clock(requests: seq<Request>, start: Time): Time {
    if requests == [] then start else requests[|requests| - 1].now
  }

  ghost predicate ClockGrows(requests: seq<Request>, start: Time) {
    && (forall i | 0 <= i < |requests| :: start <= requests[i].now)
    && (forall i, k | 0 <= i <= k < |requests| :: requests[i].now <= requests[k].now)
  }

  /** What the client has used and may still use, against one full bucket per stay and what was refilled. */
  ghost predicate WithinStays(l: Limits, clients: Clients, client: string, admitted: nat, evictions: nat, start: Time, clock: Time) {
    if client in clients then
      && BucketOk(l, clients[client]) && start <= clients[client].lastRefill <= clock
      && clients[client].tokens + admitted as real
           <= (evictions + 1) as real * l.burst + Seconds(clients[client].lastRefill - start) * l.rate
    else
      start <= clock && admitted as real <= evictions as real * l.burst + Seconds(clock - start) * l.rate
  }

  /** Time only adds to what may be used. */
  lemma RefillGrows(l: Limits, x: Time, y: Time)
    requires l.rate > 0.0 && x <= y
    ensures Seconds(x) * l.rate <= Seconds(y) * l.rate
  {
    Scale(Seconds(x), Seconds(y), l.rate);
  }

  lemma OneMoreStay(l: Limits, evictions: nat)
    ensures (evictions + 1) as real * l.burst == evictions as real * l.burst + l.burst
  {
  }

  /** One request, of this client or another, keeps within the stays. */
  lemma RequestWithinStays(l: Limits, before: Clients, after: Clients, r: Request, client: string,
                           admitted: nat, evictions: nat, start: Time, clock: Time)
    requires ValidLimits(l) && IsAllow(l, before, after, r.client, r.now, r.allowed, r.wait)
    requires WithinStays(l, before, client, admitted, evictions, start, clock) && clock <= r.now
    ensures WithinStays(l, after, client, admitted + (if r.client == client && r.allowed then 1 else 0),
                        evictions + (if client in before && client !in after then 1 else 0), start, r.now)
  {
    hide MakesRoom, Seconds, BucketOk, Serve, Admits, Wait, WithinStays;
    if r.client == client {
      if client in before {
        OwnRequest(l, before, after, r.now, client, admitted, evictions, start, clock);
      } else {
        FirstRequest(l, before, after, r.now, client, admitted, evictions, start, clock);
      }
    } else if client in before && client !in after {
      StayEnds(l, before, after, r.now, client, admitted, evictions, start, clock);
    } else {
      TimePasses(l, before, after, r.now, client, admitted, evictions, start, clock);
    }
  }

  lemma OwnRequest(l: Limits, before: Clients, after: Clients, now: Time, client: string,
                   admitted: nat, evictions: nat, start: Time, clock: Time)
    requires ValidLimits(l) && client in before && client in after && after[client] == Serve(l, before[client], now) && clock <= now
    requires WithinStays(l, before, client, admitted, evictions, start, clock)
    ensures WithinStays(l, after, client, admitted + (if Admits(l, before[client], now) then 1 else 0), evictions, start, now)
  {
    var b := before[client];
    ServeKeepsOk(l, b, now);
    ServePays(l, b, now);
    hide Serve, Admits, BucketOk, Seconds;
    AddUp(b.lastRefill - start, now - b.lastRefill, l.rate);
  }

  lemma FirstRequest(l: Limits, before: Clients, after: Clients, now: Time, client: string,
                     admitted: nat, evictions: nat, start: Time, clock: Time)
    requires ValidLimits(l) && client !in before && client in after && after[client] == Serve(l, Filled(l, now), now) && clock <= now
    requires WithinStays(l, before, client, admitted, evictions, start, clock)
    ensures WithinStays(l, after, client, admitted + (if Admits(l, Filled(l, now), now) then 1 else 0), evictions, start, now)
  {
    assert after[client].tokens + 1.0 == l.burst && after[client].lastRefill == now && Admits(l, Filled(l, now), now);
    hide Serve, Admits, Seconds;
    OneMoreStay(l, evictions);
    RefillGrows(l, clock - start, now - start);
  }

  lemma StayEnds(l: Limits, before: Clients, after: Clients, now: Time, client: string,
                 admitted: nat, evictions: nat, start: Time, clock: Time)
    requires ValidLimits(l) && client in before && client !in after && clock <= now
    requires WithinStays(l, before, client, admitted, evictions, start, clock)
    ensures WithinStays(l, after, client, admitted, evictions + 1, start, now)
  {
    hide Seconds;
    RefillGrows(l, before[client].lastRefill - start, now - start);
  }

  lemma TimePasses(l: Limits, before: Clients, after: Clients, now: Time, client: string,
                   admitted: nat, evictions: nat, start: Time, clock: Time)
    requires ValidLimits(l) && clock <= now
    requires if client in before then client in after && after[client] == before[client] else client !in after
    requires WithinStays(l, before, client, admitted, evictions, start, clock)
    ensures WithinStays(l, after, client, admitted, evictions, start, now)
  {
    hide Seconds, BucketOk;
    RefillGrows(l, clock - start, now - start);
  }

  lemma {:induction false} RunWithinStays(l: Limits, states: seq<Clients>, requests: seq<Request>, client: string, start: Time)
    requires ValidLimits(l) && IsTrace(l, states, requests) && ClockGrows(requests, start)
    requires client in states[0] ==> BucketOk(l, states[0][client]) && states[0][client].lastRefill == start
    ensures WithinStays(l, states[|requests|], client, Admitted(requests, client), Evictions(states, client), start, Clock(requests, start))
    decreases |requests|
  {
    hide IsAllow, WithinStays;
    if requests == [] {
      StartsWithin(l, states[0], client, start);
    } else {
      var n := |requests| - 1;
      var front, earlier := requests[..n], states[..n + 1];
      assert IsTrace(l, earlier, front) && ClockGrows(front, start);
      RunWithinStays(l, earlier, front, client, start);
      RequestWithinStays(l, states[n], states[n + 1], requests[n], client, Admitted(front, client), Evictions(earlier, client), start,
                         Clock(front, start));
      assert states == earlier + [states[n + 1]] && states[..|states| - 1] == earlier;
    }
  }

  lemma StartsWithin(l: Limits, clients: Clients, client: string, start: Time)
    requires ValidLimits(l) && (client in clients ==> BucketOk(l, clients[client]) && clients[client].lastRefill == start)
    ensures WithinStays(l, clients, client, 0, 0, start, start)
  {
    assert Seconds(0) * l.rate == 0.0;
  }

  /**
   * Losing and regaining its place buys a client one burst each time, and nothing more: with a clock that
   * does not go back, the requests admitted are at most a burst per stay plus the rate times the elapsed time.
   */
  lemma AdmissionsAcrossEvictions(l: Limits, states: seq<Clients>, requests: seq<Request>, client: string, start: Time)
    requires ValidLimits(l) && IsTrace(l, states, requests) && ClockGrows(requests, start)
    requires client in states[0] ==> BucketOk(l, states[0][client]) && states[0][client].lastRefill == start
    ensures Admitted(requests, client) as real
         <= (Evictions(states, client) + 1) as real * l.burst + Seconds(Clock(requests, start) - start) * l.rate
  {
    hide IsAllow, Seconds, Admitted, Evictions, Clock;
    RunWithinStays(l, states, requests, client, start);
    var last, clock, evictions := states[|requests|], Clock(requests, start), Evictions(states, client);
    OneMoreStay(l, evictions);
    if client in last {
      RefillGrows(l, last[client].lastRefill - start, clock - start);
    }
  }

  /**
   * A client that is turned away and sends nothing until its wait is over is then admitted, even if it
   * was evicted in the meantime.
   */
  lemma RejectedClientGetsIn(l: Limits, states: seq<Clients>, requests: seq<Request>, client: string)
    requires ValidLimits(l) && IsTrace(l, states, requests) && |requests| >= 2
    requires forall k | k in states[0] :: BucketOk(l, states[0][k]) && states[0][k].lastRefill <= requests[0].now
    requires requests[0].client == client && !requests[0].allowed
    requires forall i | 0 < i < |requests| - 1 :: requests[i].client != client
    requires requests[|requests| - 1].client == client
    requires requests[|requests| - 1].now >= requests[0].now + requests[0].wait
    ensures requests[|requests| - 1].allowed
  {
    var n := |requests| - 1;
    var b := if client in states[0] then states[0][client] else Filled(l, requests[0].now);
    assert IsAllow(l, states[0], states[1], client, requests[0].now, false, requests[0].wait);
    WaitIsEnough(l, b, requests[0].now, requests[n].now);
    KeptOrGone(l, states, requests, client, Serve(l, b, requests[0].now), n);
    assert IsAllow(l, states[n], states[n + 1], client, requests[n].now, requests[n].allowed, requests[n].wait);
    FullAdmits(l, requests[n].now);
    hide Admits, Serve, Wait;
  }

  lemma FullAdmits(l: Limits, now: Time)
    requires ValidLimits(l)
    ensures Admits(l, Filled(l, now), now)
  {
  }

  /** Until its next request a client's bucket is unchanged or evicted. */
  lemma {:induction false} KeptOrGone(l: Limits, states: seq<Clients>, requests: seq<Request>, client: string, b: Bucket, n: nat)
    requires ValidLimits(l) && IsTrace(l, states, requests) && 1 <= n <= |requests|
    requires client in states[1] && states[1][client] == b
    requires forall i | 0 < i < n :: requests[i].client != client
    ensures client in states[n] ==> states[n][client] == b
    decreases n
  {
    hide Serve, Admits, Wait;
    if n > 1 {
      KeptOrGone(l, states, requests, client, b, n - 1);
      assert IsAllow(l, states[n - 1], states[n], requests[n - 1].client, requests[n - 1].now, requests[n - 1].allowed,
                     requests[n - 1].wait);
    }
  }
}
