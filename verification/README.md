# DoH forwarder: routing and bootstrap model

This project models the core of a local DNS-to-DoH forwarder (`doh_service.go`). The forwarder accepts plain UDP DNS queries and answers each one in one of four ways, checked in this order:

- from the bootstrap record for the DoH provider's own host name (`cloudflare-dns.com.`);
- from a one-hour name cache;
- by forwarding the query to `https://cloudflare-dns.com/dns-query` over HTTPS;
- by relaying the query over HTTPS without touching the cache.

Before it starts serving, it looks up the provider's address over plain DNS. It tries once, then up to five more times, sleeping one second before each retry.

All I/O is behind oracles:
- The DNS wire codec is a pair of functions `Packer` / `Unpacker`.
- The HTTP client is a function from a POST request to its outcome.
- The upstream exchange, as the handler sees it, is a function from a query to a reply or an error kind.
- The bootstrap lookups are a function from the attempt number to that attempt's outcome.
- Time is an integer clock reading in nanoseconds, which is the unit go-cache's deadlines use.
- Sleeps are counted, not performed.

Modules:
- `Wrappers`: the `Option` and `Result` datatypes.
- `DnsMsg`: DNS messages. It also models the two library helpers the handler uses. `SetReply` sets the request's id and first question, sets the QR flag, resets the response code to success and keeps the answers. `HandleFailed` builds the SERVFAIL reply.
- `NameCache`: go-cache as a map from name to an entry with a deadline. Its operations are `Get`, `SetDefault` and the janitor's `DeleteExpired`.
- `HttpsTransport`: the status rule of `makeHttpsRequest`.
- `DohQuery`: the pack, POST, unpack pipeline of `QueryOverHTTPS`, with a tagged error kind (`PackErr | TransportErr | UnpackErr`).
- `Handler`: `ServeDNS` as the pure step function `Serve`. It returns the messages written, the cache afterwards and the number of upstream calls. `ServeAll` folds `Serve` over queries served one after another.
- `HandlerProps`: properties relating several calls.
- `Bootstrap`: the retry loop. It has two forms, proved equal: a recursive description and a method shaped like the Go loop.
- `Decimal`: `strconv.Itoa`, used for the listen address, and its reader.
- `Service`: `RunDNS`. A server (and therefore a listener) is built only after a successful bootstrap.

Three details of the code decide edge cases, and the model keeps them:
- The A-type test looks only at the first question. A query with several questions whose first one is type A takes the A path.
- The HTTPS exchange succeeds only on status exactly 200. Every other status, including other 2xx codes, is an error.
- The self-host test is an exact, case-sensitive string comparison with `cloudflare-dns.com.`. A differently cased name takes the cache and upstream path.

One consequence of `SetReply` is visible in `Handler.Serve`'s contract: every reply built from an upstream response carries the success response code. So an upstream NXDOMAIN reaches the client as NOERROR with the upstream's (empty) answer section, and it is cached that way.

## Model

| member | source | states |
|---|---|---|
| `Handler.Serve` | doh_service.go:72-115 | Every query gets exactly one reply, carrying the query's id and first question. Only the cache miss and the relay call the upstream, once each; the self-host shortcut and the cache hit never do. The shortcut answers with the bootstrap answers and a hit with the cached answers. A forwarded query gets the upstream's answers, or SERVFAIL with no answers on failure. Only a successful miss writes the cache: it adds exactly the queried name, bound to the reply, and keeps every other entry. The cache never holds anything but type-A replies under their own name. |
| `Handler.ServeAll` | doh_service.go:72-115 | Queries served in sequence are never dropped: the i-th reply answers the i-th query. There is at most one upstream call per query, and the type-A-only cache invariant is kept across the whole sequence. |
| `Handler.Classify` | doh_service.go:73-89 | The branch order. Relay exactly when there is no question or the first is not type A. Self-host exactly for a type-A first question named `cloudflare-dns.com.`. Cache hit exactly for any other type-A name with a live entry. Cache miss exactly when such a name has no live entry. |
| `HandlerProps.SelfHostNeedsNoNetwork` | doh_service.go:73-79 | An A query for `cloudflare-dns.com.` is answered from the bootstrap message. The reply is the same whatever the cache holds and whatever the upstream would do, there are no upstream calls and the cache is unchanged. |
| `HandlerProps.ServFailIffUpstreamFailed` | doh_service.go:72-115 | A reply carries SERVFAIL exactly when the query was forwarded (cache miss or relay) and the upstream exchange failed. Every other reply carries the success code. |
| `HandlerProps.CacheHitNeedsNoNetwork` | doh_service.go:82-88 | On a cache hit the whole outcome is independent of the upstream. The reply is the cached message made the reply to the query. |
| `HandlerProps.RelayNeverTouchesCache` | doh_service.go:104-113 | A query with no question, or whose first question is not type A, gets the same reply whatever the cache holds and whenever it arrives. The cache is unchanged and the upstream is called exactly once. |
| `HandlerProps.RelayedQueriesAreNeverCached` | doh_service.go:104-113 | Two identical non-A queries in a row cost two upstream calls and leave the cache unchanged. |
| `HandlerProps.RepeatedQueryHitsCache` | doh_service.go:84-96 | After a successful miss, an A query for the same name within the one-hour window makes no upstream call. It is answered with the same answers as the first reply, whatever the upstream would now do, and leaves the cache as it was. |
| `HandlerProps.HttpErrorServesFailure` | doh_service.go:89-113 | With the real transport, a non-200 status for a forwarded query makes the reply SERVFAIL, and nothing is stored. |
| `HandlerProps.ExampleComScenario` | doh_service.go:82-96 | `example.com.` A against an empty cache is forwarded once. The same query a minute later is answered from the cache with 93.184.216.34 and its own id, and no second upstream call is made. |
| `DohQuery.QueryOverHttps` | doh_service.go:117-134 | Success holds exactly when pack, transport and unpack all succeed, and the result is the unpacked message. A pack failure is `PackErr` after one stage, so the transport is never run. A transport failure is `TransportErr` after two stages, so unpack is never run. An unpack failure is `UnpackErr`. |
| `DohQuery.DohUpstream` | doh_service.go:117-134 | Over the real transport, a query succeeds exactly when it packs, the POST answers with status 200 and a readable body, and that body unpacks. It fails with `TransportErr` exactly when it packs but `makeHttpsRequest` fails. |
| `DohQuery.PackFailureStopsPipeline` | doh_service.go:117-133 | Once packing fails, the transport and the unpacker cannot affect the result. |
| `DohQuery.TransportFailureStopsPipeline` | doh_service.go:120-131 | Once the transport fails, the unpacker cannot affect the result. |
| `DohQuery.HttpErrorIsTransportError` | doh_service.go:121-131 | A non-200 HTTP status for the packed query surfaces from the upstream as `TransportErr`. |
| `HttpsTransport.MakeHttpsRequest` | doh_service.go:43-63 | Response bytes come back exactly when the POST got through, the status is 200 and the body read succeeds; they are the body. A client error is `PostFailed`. A non-200 status is `HttpStatus(status)` even when the body could not be read, because the status is checked first. A read failure after 200 is `BodyReadFailed`. |
| `DnsMsg.SetReply` | doh_service.go:95 | The reply carries the request's id, the QR flag and the success code. Its question section is the request's first question when there is one; otherwise it is left as it was. It keeps the answers of the message it was built from. |
| `DnsMsg.SetReplyOverwrites` | doh_service.go:76-88 | Within the modelled fields (id, QR flag, response code, question, answers), rewriting a shared message in place with `SetReply` (the host message, a cached message) cannot be observed. The next reply built from it for a query with a question is the one the untouched message gives. |
| `DnsMsg.HandleFailed` | doh_service.go:97-100 | The failure reply carries the query's id and first question, the QR flag, SERVFAIL and no answers. |
| `NameCache.Get` | doh_service.go:84 | A name is found exactly when it is stored and its deadline has not passed, and the result is the stored message. |
| `NameCache.SetDefault` | doh_service.go:94 | Writing adds exactly the written name, keeps every other entry and makes the written message found at once. |
| `NameCache.GetAfterSetDefault` | doh_service.go:180 | A written entry is found for one hour after the write and not after that. |
| `NameCache.SetDefaultFrames` | doh_service.go:94 | Writing one name leaves every lookup of another name unchanged. |
| `NameCache.DeleteExpired` | doh_service.go:180 | The janitor's sweep keeps exactly the live entries, unchanged. |
| `NameCache.DeleteExpiredInvisible` | doh_service.go:180 | A sweep at any time is invisible to lookups at that time or later. |
| `Bootstrap.RetryFrom` | doh_service.go:158-170 | Once the first i lookups have failed: there are at most six lookups in all and one sleep per retry. No lookup before the last one made succeeded. On success the host is the last lookup's result; on giving up, every remaining lookup failed. |
| `Bootstrap.ResolveDohHost` | doh_service.go:150-175 | There are between one and six lookups, with one sleep per retry. Lookups stop at the first success. A host is obtained exactly when some lookup within the budget succeeds. Giving up happens only after six lookups and five sleeps. |
| `Bootstrap.RetryLoop` | doh_service.go:150-175 | The Go-shaped loop makes exactly the lookups and sleeps, and returns exactly the result, given by the recursive description. |
| `Service.RunDns` | doh_service.go:148-185 | A server is built exactly when some bootstrap lookup within the budget succeeds. Otherwise the result is the bootstrap error after six lookups and five sleeps, and no server exists to start a listener. A built server has as its handler the host from the successful lookup and an empty cache, uses network `udp`, and listens on an address naming the requested port. |
| `Decimal.Itoa` | doh_service.go:183 | The port text is never empty. It starts with a minus sign exactly for a negative port, followed only by digits with no leading zero. |
| `Decimal.ItoaRoundTrip` | doh_service.go:183 | Reading back the decimal text `strconv.Itoa` writes for the port gives the port. |
| `Decimal.DigitsRoundTrip` | doh_service.go:183 | The digits written for a natural number read back as that number. |

## Left out

- TLS client construction and the actual POST and body read (doh_service.go:37-44, 53) are network I/O. The HTTP client is an oracle from request to outcome. Skipping certificate verification (doh_service.go:38) is a security defect, not behaviour, so it is not modelled.
- The DNS wire codec (`Pack`, `Unpack`) is library code. It appears as oracle functions.
- `SetReply` and `HandleFailed` are library code. The model keeps only the message fields the forwarder relies on: id, QR flag, response code, question and answer sections. The opcode, RD and CD header bits and the authority and additional sections are not modelled.
- `w.WriteMsg` is not modelled. Its own packing and any write error (which the code ignores) are output I/O. "Exactly one reply" means one message handed to the writer.
- go-cache's locking and the janitor goroutine's scheduling are not modelled. The cache is a plain map with deadlines, and `DeleteExpired` is the sweep.
- `Handler.Serve` reads the clock once per query: the cache lookup and the cache write use the same reading, and upstream latency is not modelled.
- `Handler.ServeAll` treats the upstream as a function of the query. Two identical forwarded queries in one run therefore get the same upstream outcome, which a real network need not give.
- `getDohHostAddr`'s UDP exchange with 1.1.1.1:53 (doh_service.go:136-143) is network I/O. It is the per-attempt oracle `Resolver`.
- `time.Sleep(time.Second * 1)` is counted as one sleep per retry. No time passes in the model, and the length of a sleep is not modelled.
- The goroutine running `ListenAndServe`, the `errHandler` callback, `srv.Shutdown` and the stop closure (doh_service.go:187-198) are concurrency and server lifecycle.
- Concurrent handling of queries, including the un-deduplicated concurrent misses for the same name, is not modelled. Queries are served one at a time.
- `log.Printf`, `WriteErrorLog` and `WriteErrorLogMsg` are logging side effects. The error strings built with `newErr` become the tagged kinds `PackErr`, `TransportErr`, `UnpackErr` and `TransportFailure`. Only the bootstrap failure message is kept as text.
- The in-place rewrite of the shared host message and cached messages by `SetReply` is modelled as leaving them unchanged. Within the modelled fields (id, QR flag, response code, question, answers), `DnsMsg.SetReplyOverwrites` shows no later reply can tell the difference.
- DnsMsg.SetReplyOverwrites: holds only for the modelled fields. The library's `SetReply` copies the RD and CD bits only when the request's opcode is QUERY. So after an in-place rewrite of the host or a cached message, a later type-A request with another opcode still gets the RD and CD bits the earlier request set. Those bits are not in the model, so the lemma cannot see this.
