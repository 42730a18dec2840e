/**
  Properties of the forwarder that relate several calls of `Serve`: which
  inputs a branch can depend on, what a repeated query sees, and a worked
  scenario.
 */
module HandlerProps {
  import opened Wrappers
  import opened DnsMsg
  import opened NameCache
  import opened Handler
  import DohQuery
  import HttpsTransport

  /**
    The self-host shortcut answers from the bootstrap message alone: neither
    the cache contents nor the upstream (reachable or not) affect the reply,
    and the cache is left as it was.
   */
  lemma SelfHostNeedsNoNetwork(q: Msg, c1: Cache, c2: Cache, host: Msg, now: int, u1: Upstream, u2: Upstream)
    requires IsTypeA(q) && QName(q) == DohHost
    ensures Serve(q, c1, host, now, u1).written == Serve(q, c2, host, now, u2).written == [SetReply(host, q)]
    ensures Serve(q, c1, host, now, u1).cache == c1
    ensures Serve(q, c1, host, now, u1).upstreamCalls == 0
  {
  }

  /**
    A client sees SERVFAIL exactly when its query was forwarded (a cache
    miss or a relay) and the upstream exchange failed; every other reply
    carries the success code.
   */
  lemma ServFailIffUpstreamFailed(q: Msg, c: Cache, host: Msg, now: int, u: Upstream)
    ensures Serve(q, c, host, now, u).written[0].rcode == RcodeServerFailure
            <==> Classify(q, c, now) in {CacheMiss, Relay} && u(q).Err?
    ensures Serve(q, c, host, now, u).written[0].rcode != RcodeServerFailure
            ==> Serve(q, c, host, now, u).written[0].rcode == RcodeSuccess
  {
  }

  /** A cache hit does not depend on the upstream at all. */
  lemma CacheHitNeedsNoNetwork(q: Msg, c: Cache, host: Msg, now: int, u1: Upstream, u2: Upstream)
    requires Classify(q, c, now) == CacheHit
    ensures Serve(q, c, host, now, u1) == Serve(q, c, host, now, u2)
    ensures Serve(q, c, host, now, u1).written == [SetReply(Get(c, QName(q), now).value, q)]
  {
  }

  /**
    A query with no question or whose first question is not type A is
    relayed without reading the cache: the reply is the same whatever the
    cache holds and whenever it is served, and the cache is not written.
   */
  lemma RelayNeverTouchesCache(q: Msg, c1: Cache, c2: Cache, host: Msg, now1: int, now2: int, u: Upstream)
    requires !IsTypeA(q)
    ensures Serve(q, c1, host, now1, u).written == Serve(q, c2, host, now2, u).written
    ensures Serve(q, c1, host, now1, u).cache == c1
    ensures Serve(q, c1, host, now1, u).upstreamCalls == 1
  {
  }

  /** Two consecutive identical non-A queries each cost an upstream call. */
  lemma RelayedQueriesAreNeverCached(q: Msg, c: Cache, host: Msg, t1: int, t2: int, u: Upstream)
    requires !IsTypeA(q)
    ensures ServeAll([Arrival(q, t1), Arrival(q, t2)], c, host, u).upstreamCalls == 2
    ensures ServeAll([Arrival(q, t1), Arrival(q, t2)], c, host, u).cache == c
  {
    var arrivals := [Arrival(q, t1), Arrival(q, t2)];
    assert arrivals[1..] == [Arrival(q, t2)];
    assert [Arrival(q, t2)][1..] == [];
    // the second query is relayed from the unchanged cache, and the empty tail changes nothing
    assert ServeAll([], c, host, u).cache == c;
  }

  /**
    After a successful miss, an A query for the same name within the cache
    window is a hit: it makes no upstream call, whatever the upstream would
    now do, carries the same answers as the first reply and leaves the
    cache as it was.
   */
  lemma RepeatedQueryHitsCache(q: Msg, q2: Msg, c: Cache, host: Msg, now: int, later: int, u: Upstream, u2: Upstream)
    requires Classify(q, c, now) == CacheMiss && u(q).Ok?
    requires IsTypeA(q2) && QName(q2) == QName(q)
    requires later <= now + DefaultExpiration
    ensures var first := Serve(q, c, host, now, u);
            var second := Serve(q2, first.cache, host, later, u2);
            && second.upstreamCalls == 0
            && second.written[0].answers == first.written[0].answers == u(q).value.answers
            && second.cache == first.cache
  {
  }

  /**
    With the real transport: when the HTTP status for the packed query is
    not 200, a cache miss or a relayed query is answered with SERVFAIL and
    nothing is stored.
   */
  lemma HttpErrorServesFailure(q: Msg, c: Cache, host: Msg, now: int, pack: DohQuery.Packer,
                               post: HttpsTransport.PostRequest -> HttpsTransport.PostOutcome,
                               unpack: DohQuery.Unpacker)
    requires Classify(q, c, now) in {CacheMiss, Relay}
    requires pack(q).Some?
    requires post(HttpsTransport.DohPost(pack(q).value)).Response?
    requires post(HttpsTransport.DohPost(pack(q).value)).status != 200
    ensures Serve(q, c, host, now, DohQuery.DohUpstream(pack, post, unpack)).written == [HandleFailed(q)]
    ensures Serve(q, c, host, now, DohQuery.DohUpstream(pack, post, unpack)).cache == c
  {
  }

  /** The answer of the `example.com.` scenario: 93.184.216.34. */
  const ExampleAnswer: Rr := Rr("example.com.", TypeA, 300, [93, 184, 216, 34])

  /**
    Scenario: `example.com.` type A against an empty cache is forwarded, the
    cache then holds the answer, and the same query a minute later is
    answered from the cache without a second upstream call.
   */
  lemma ExampleComScenario(host: Msg, now: int, u: Upstream)
    requires u(Msg(7, false, RcodeSuccess, [Question("example.com.", TypeA, ClassINET)], []))
             == Ok(Msg(0, true, RcodeSuccess, [Question("example.com.", TypeA, ClassINET)], [ExampleAnswer]))
    ensures var q := Msg(7, false, RcodeSuccess, [Question("example.com.", TypeA, ClassINET)], []);
            var q2 := q.(id := 8);
            var run := ServeAll([Arrival(q, now), Arrival(q2, now + 60 * Second)], EmptyCache, host, u);
            && run.upstreamCalls == 1
            && run.written[0].answers == run.written[1].answers == [ExampleAnswer]
            && run.written[1].id == 8
            && Get(run.cache, "example.com.", now + 60 * Second).Some?
  {
    var q := Msg(7, false, RcodeSuccess, [Question("example.com.", TypeA, ClassINET)], []);
    var q2 := q.(id := 8);
    var arrivals := [Arrival(q, now), Arrival(q2, now + 60 * Second)];
    assert arrivals[1..] == [Arrival(q2, now + 60 * Second)];
    assert [Arrival(q2, now + 60 * Second)][1..] == [];
    // the first query misses the empty cache, so the second one hits
    assert Classify(q, EmptyCache, now) == CacheMiss;
    RepeatedQueryHitsCache(q, q2, EmptyCache, host, now, now + 60 * Second, u, u);
    var first := Serve(q, EmptyCache, host, now, u);
    var second := Serve(q2, first.cache, host, now + 60 * Second, u);
    assert ServeAll([], second.cache, host, u).cache == second.cache;
  }
}
