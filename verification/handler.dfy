/**
  `SecHandler.ServeDNS`: the per-query decision procedure of the forwarder.
  One call answers one query from the bootstrap host message, from the
  cache, or through the upstream, and reports the cache afterwards and how
  many times the upstream was called.
 */
module Handler {
  import opened Wrappers
  import opened DnsMsg
  import opened NameCache
  import DohQuery

  /** The upstream exchange: `QueryOverHTTPS` seen from the handler. */
  type Upstream = Msg -> Result<Msg, DohQuery.QueryError>

  /** The handler's fields: service type, bootstrap host message, name cache. */
  datatype SecHandler = SecHandler(serviceType: string, host: Msg, nameCache: Cache)

  /** The branches of `ServeDNS`, in the order the code tests them. */
  datatype Branch = SelfHost | CacheHit | CacheMiss | Relay

  /** The messages written for the query, the cache afterwards, the upstream calls made. */
  datatype Served = Served(written: seq<Msg>, cache: Cache, upstreamCalls: nat)

  /** The name the cache is keyed by: the first question's name. */
  function QName(q: Msg): string
    requires |q.questions| > 0
  {
    q.questions[0].name
  }

  /**
    Which branch `ServeDNS` takes: the A-type test on the first question
    comes first, then the exact host-name comparison, then the cache lookup.
   */
  function Classify(q: Msg, cache: Cache, now: int): (b: Branch)
    ensures b == Relay <==> |q.questions| == 0 || q.questions[0].qtype != TypeA
    ensures b == SelfHost <==> |q.questions| > 0 && q.questions[0].qtype == TypeA
                                && q.questions[0].name == DohHost
    ensures b == CacheHit <==> |q.questions| > 0 && q.questions[0].qtype == TypeA
                                && q.questions[0].name != DohHost
                                && q.questions[0].name in cache && Live(cache[q.questions[0].name], now)
    ensures b == CacheMiss <==> |q.questions| > 0 && q.questions[0].qtype == TypeA
                                 && q.questions[0].name != DohHost
                                 && Get(cache, q.questions[0].name, now).None?
  {
    if !IsTypeA(q) then Relay
    else if QName(q) == DohHost then SelfHost
    else if Get(cache, QName(q), now).Some? then CacheHit
    else CacheMiss
  }

  /** The reply for an upstream outcome: the response made a reply, or SERVFAIL. */
  function Answer(q: Msg, outcome: Result<Msg, DohQuery.QueryError>): Msg {
    match outcome
    case Ok(resp) => SetReply(resp, q)
    case Err(_) => HandleFailed(q)
  }

  /**
    The cache invariant: only replies to A-type queries are stored, each
    under the name its question asks about, and never the DoH host name.
   */
  ghost predicate OnlyTypeAEntries(c: Cache) {
    forall k :: k in c ==>
      && k != DohHost
      && |c[k].msg.questions| == 1
      && c[k].msg.questions[0].name == k
      && c[k].msg.questions[0].qtype == TypeA
  }

  /**
    `ServeDNS(w, q)` with the cache read and written at clock reading `now`.
    Every branch writes exactly one message, echoing the query's id and
    first question; only the cache miss writes to the cache, and only the
    cache miss and the relay call the upstream, once each.
   */
  function Serve(q: Msg, cache: Cache, host: Msg, now: int, upstream: Upstream): (o: Served)
    // exactly one reply, addressed to this query
    ensures |o.written| == 1
    ensures o.written[0].id == q.id && o.written[0].response
    ensures |q.questions| > 0 ==> o.written[0].questions == [q.questions[0]]
    // which branch calls the network
    ensures o.upstreamCalls == (if Classify(q, cache, now) in {SelfHost, CacheHit} then 0 else 1)
    // self-host shortcut: the bootstrap answer
    ensures Classify(q, cache, now) == SelfHost ==>
              o.written[0].answers == host.answers && o.written[0].rcode == RcodeSuccess
    // cache hit: the cached answers
    ensures Classify(q, cache, now) == CacheHit ==>
              o.written[0].answers == Get(cache, QName(q), now).value.answers
              && o.written[0].rcode == RcodeSuccess
    // forwarded: the upstream's answers, or SERVFAIL with no answers
    ensures Classify(q, cache, now) in {CacheMiss, Relay} && upstream(q).Ok? ==>
              o.written[0].answers == upstream(q).value.answers && o.written[0].rcode == RcodeSuccess
    ensures Classify(q, cache, now) in {CacheMiss, Relay} && upstream(q).Err? ==>
              o.written[0].answers == [] && o.written[0].rcode == RcodeServerFailure
    // which branch writes the cache
    ensures Classify(q, cache, now) != CacheMiss || upstream(q).Err? ==> o.cache == cache
    ensures Classify(q, cache, now) == CacheMiss && upstream(q).Ok? ==>
              && o.cache.Keys == cache.Keys + {QName(q)}
              && (forall k :: k in cache && k != QName(q) ==> o.cache[k] == cache[k])
              && Get(o.cache, QName(q), now) == Some(o.written[0])
    ensures OnlyTypeAEntries(cache) ==> OnlyTypeAEntries(o.cache)
  {
    if IsTypeA(q) then
      var name := QName(q);
      if name == DohHost then
        Served([SetReply(host, q)], cache, 0)
      else
        match Get(cache, name, now)
        case Some(cached) => Served([SetReply(cached, q)], cache, 0)
        case None =>
          var outcome := upstream(q);
          var reply := Answer(q, outcome);
          if outcome.Ok? then Served([reply], SetDefault(cache, name, reply, now), 1)
          else Served([reply], cache, 1)
    else
      Served([Answer(q, upstream(q))], cache, 1)
  }

  /** A query that arrives at clock reading `at`. */
  datatype Arrival = Arrival(query: Msg, at: int)

  /**
    Queries served one after another, each seeing the cache the previous
    one left. No query is dropped: the i-th message written answers the
    i-th query.
   */
  function ServeAll(arrivals: seq<Arrival>, cache: Cache, host: Msg, upstream: Upstream): (o: Served)
    ensures |o.written| == |arrivals|
    ensures forall i :: 0 <= i < |arrivals| ==> o.written[i].id == arrivals[i].query.id
    ensures o.upstreamCalls <= |arrivals|
    ensures OnlyTypeAEntries(cache) ==> OnlyTypeAEntries(o.cache)
    decreases |arrivals|
  {
    if |arrivals| == 0 then Served([], cache, 0)
    else
      var first := Serve(arrivals[0].query, cache, host, arrivals[0].at, upstream);
      var rest := ServeAll(arrivals[1..], first.cache, host, upstream);
      Served(first.written + rest.written, rest.cache, first.upstreamCalls + rest.upstreamCalls)
  }
}
